/**
 * The free-flying camera: a position in light-years, an orientation given by
 * yaw and pitch in degrees with the front/right/up basis derived from them,
 * a movement speed, a mouse sensitivity and a field of view. The `float`
 * fields of the camera are modelled as reals.
 */
module Cameras {
  import opened Geometry

  datatype CameraMovement = Forward | Backward | Left | Right | Up | Down

  /** Initial orientation and options. */
  const YAW: real := -90.0
  const PITCH: real := 0.0
  const SPEED: real := 1.0
  const SENSITIVITY: real := 0.1
  const ZOOM: real := 45.0
  const WORLD_UP: Vec3 := Vec3(0.0, 1.0, 0.0)

  /** Bounds the camera keeps. */
  const MAX_PITCH: real := 89.0
  const MIN_ZOOM: real := 1.0
  const MAX_ZOOM: real := 120.0
  const MIN_SPEED: real := 0.01
  const MAX_SPEED: real := 100.0
  const SPEED_STEP: real := 1.5

  /** The viewing direction for the given Euler angles (in degrees), before normalisation. */
  function FrontDirection(yaw: real, pitch: real, m: Libm): Vec3
  {
    var cy := m.cos(ToRadians(yaw));
    var sy := m.sin(ToRadians(yaw));
    var cp := m.cos(ToRadians(pitch));
    var sp := m.sin(ToRadians(pitch));
    Vec3(cy * cp, sp, sy * cp)
  }

  datatype Basis = Basis(front: Vec3, right: Vec3, up: Vec3)

  /** Front from the angles, right from front and the world's up, up from right and front; each normalised. */
  function CameraBasis(yaw: real, pitch: real, worldUp: Vec3, m: Libm): Basis
  {
    var front := m.normalize(FrontDirection(yaw, pitch, m));
    var right := m.normalize(Cross(front, worldUp));
    Basis(front, right, m.normalize(Cross(right, front)))
  }

  /**
   * When sine and cosine satisfy the Pythagorean identity at both angles,
   * the direction is already of unit length, whatever the angles: the
   * normalisation only corrects rounding.
   */
  lemma FrontDirectionIsUnit(yaw: real, pitch: real, m: Libm)
    requires var a := ToRadians(yaw); m.sin(a) * m.sin(a) + m.cos(a) * m.cos(a) == 1.0
    requires var a := ToRadians(pitch); m.sin(a) * m.sin(a) + m.cos(a) * m.cos(a) == 1.0
    ensures Norm2(FrontDirection(yaw, pitch, m)) == 1.0
  {
    var cy := m.cos(ToRadians(yaw));
    var sy := m.sin(ToRadians(yaw));
    var cp := m.cos(ToRadians(pitch));
    var sp := m.sin(ToRadians(pitch));
    calc {
      Norm2(FrontDirection(yaw, pitch, m));
      (cy * cp) * (cy * cp) + sp * sp + (sy * cp) * (sy * cp);
      (cy * cy + sy * sy) * (cp * cp) + sp * sp;
      { assert cy * cy + sy * sy == 1.0; }
      cp * cp + sp * sp;
    }
  }

  /** With the initial angles the camera looks down the negative z axis. */
  lemma InitialFrontLooksDownNegativeZ(m: Libm)
    requires m.cos(ToRadians(YAW)) == 0.0 && m.sin(ToRadians(YAW)) == -1.0
    requires m.cos(ToRadians(PITCH)) == 1.0 && m.sin(ToRadians(PITCH)) == 0.0
    ensures FrontDirection(YAW, PITCH, m) == Vec3(0.0, 0.0, -1.0)
  {
  }

  /** The camera's right vector before normalisation is horizontal and perpendicular to the front. */
  lemma RightIsHorizontal(front: Vec3)
    ensures Cross(front, WORLD_UP).y == 0.0
    ensures Dot(Cross(front, WORLD_UP), front) == 0.0
  {
  }

  /** The position after moving `velocity` along the axis of `dir`: forward/right/up add, the others subtract. */
  function Moved(p: Vec3, dir: CameraMovement, b: Basis, velocity: real): Vec3
  {
    match dir
    case Forward => Add(p, Scale(b.front, velocity))
    case Backward => Sub(p, Scale(b.front, velocity))
    case Left => Sub(p, Scale(b.right, velocity))
    case Right => Add(p, Scale(b.right, velocity))
    case Up => Add(p, Scale(b.up, velocity))
    case Down => Sub(p, Scale(b.up, velocity))
  }

  function Opposite(dir: CameraMovement): (o: CameraMovement)
    ensures o != dir
  {
    match dir
    case Forward => Backward
    case Backward => Forward
    case Left => Right
    case Right => Left
    case Up => Down
    case Down => Up
  }

  /** The axis a movement runs along. */
  function Axis(dir: CameraMovement, b: Basis): Vec3
  {
    if dir == Forward || dir == Backward then b.front
    else if dir == Left || dir == Right then b.right
    else b.up
  }

  /** A movement followed by the opposite one, at the same velocity and basis, returns to the start. */
  lemma OppositeMovesCancel(p: Vec3, dir: CameraMovement, b: Basis, velocity: real)
    ensures Opposite(Opposite(dir)) == dir
    ensures Moved(Moved(p, dir, b, velocity), Opposite(dir), b, velocity) == p
  {
  }

  /** A movement displaces the camera by `velocity` times the length of its axis. */
  lemma {:induction false} MoveLength(p: Vec3, dir: CameraMovement, b: Basis, velocity: real)
    ensures Norm2(Sub(Moved(p, dir, b, velocity), p)) == velocity * velocity * Norm2(Axis(dir, b))
  {
    var a := Axis(dir, b);
    var d := Sub(Moved(p, dir, b, velocity), p);
    if dir == Forward || dir == Right || dir == Up {
      assert d == Scale(a, velocity);
    } else {
      assert d == Scale(a, -velocity);
    }
    assert Norm2(d) == velocity * velocity * (a.x * a.x + a.y * a.y + a.z * a.z);
  }

  /** The pitch limit applied when the pitch is constrained. */
  function ClampPitch(pitch: real): (r: real)
    ensures -MAX_PITCH <= r <= MAX_PITCH
    ensures -MAX_PITCH <= pitch <= MAX_PITCH <==> r == pitch
    ensures pitch > MAX_PITCH ==> r == MAX_PITCH
    ensures pitch < -MAX_PITCH ==> r == -MAX_PITCH
  {
    if pitch > MAX_PITCH then MAX_PITCH else if pitch < -MAX_PITCH then -MAX_PITCH else pitch
  }

  /** The field of view after scrolling by `yoffset`, kept within [1, 120] degrees. */
  function ScrolledZoom(zoom: real, yoffset: real): (r: real)
    ensures MIN_ZOOM <= r <= MAX_ZOOM
    ensures MIN_ZOOM <= zoom - yoffset <= MAX_ZOOM <==> r == zoom - yoffset
    ensures zoom - yoffset < MIN_ZOOM ==> r == MIN_ZOOM
    ensures zoom - yoffset > MAX_ZOOM ==> r == MAX_ZOOM
  {
    var z := zoom - yoffset;
    if z < MIN_ZOOM then MIN_ZOOM else if z > MAX_ZOOM then MAX_ZOOM else z
  }

  /** Scrolling further up never widens the view. */
  lemma ScrollIsMonotone(zoom: real, y1: real, y2: real)
    requires y1 <= y2
    ensures ScrolledZoom(zoom, y2) <= ScrolledZoom(zoom, y1)
  {
  }

  /** The movement speed after one speed step: times 1.5 capped at 100, or divided by 1.5 with a floor of 0.01. */
  function AdjustedSpeed(speed: real, increase: bool): (r: real)
    ensures increase ==> r <= MAX_SPEED && (r == MAX_SPEED || r == speed * SPEED_STEP)
    ensures !increase ==> r >= MIN_SPEED && (r == MIN_SPEED || r == speed / SPEED_STEP)
    ensures MIN_SPEED <= speed <= MAX_SPEED ==> MIN_SPEED <= r <= MAX_SPEED
    ensures increase && speed > 0.0 ==> r >= speed || speed > MAX_SPEED
    ensures !increase && speed > 0.0 ==> r <= speed || speed < MIN_SPEED
  {
    if increase then
      (if speed * SPEED_STEP > MAX_SPEED then MAX_SPEED else speed * SPEED_STEP)
    else
      (if speed / SPEED_STEP < MIN_SPEED then MIN_SPEED else speed / SPEED_STEP)
  }

  /** Away from the bounds, a step up and a step down undo each other. */
  lemma SpeedStepsUndo(speed: real)
    requires MIN_SPEED <= speed && speed * SPEED_STEP <= MAX_SPEED
    ensures AdjustedSpeed(AdjustedSpeed(speed, true), false) == speed
  {
  }

  /** The bounds are reached and then kept: the fastest speed stays put when increased, the slowest when decreased. */
  lemma SpeedBoundsAreFixpoints()
    ensures AdjustedSpeed(MAX_SPEED, true) == MAX_SPEED
    ensures AdjustedSpeed(MIN_SPEED, false) == MIN_SPEED
  {
  }

  class Camera {
    var position: Vec3
    var front: Vec3
    var up: Vec3
    var right: Vec3
    var worldUp: Vec3
    var yaw: real
    var pitch: real
    var movementSpeed: real
    var mouseSensitivity: real
    var zoom: real

    /** The speed and the field of view stay within their limits. */
    ghost predicate Valid()
      reads this
    {
      MIN_SPEED <= movementSpeed <= MAX_SPEED && MIN_ZOOM <= zoom <= MAX_ZOOM
    }

    function CurrentBasis(): Basis
      reads this
    {
      Basis(front, right, up)
    }

    /** A camera at `position` with the given world up, the initial angles and options, and its basis computed. */
    constructor (position: Vec3, up: Vec3, m: Libm)
      ensures this.position == position && worldUp == up
      ensures yaw == YAW && pitch == PITCH
      ensures movementSpeed == SPEED && mouseSensitivity == SENSITIVITY && zoom == ZOOM
      ensures CurrentBasis() == CameraBasis(YAW, PITCH, up, m)
      ensures Valid()
    {
      new;
      Initialize(position, up, m);
    }

    /** A camera at `position` whose world up is +y. */
    constructor At(position: Vec3, m: Libm)
      ensures this.position == position && worldUp == WORLD_UP
      ensures yaw == YAW && pitch == PITCH
      ensures movementSpeed == SPEED && mouseSensitivity == SENSITIVITY && zoom == ZOOM
      ensures CurrentBasis() == CameraBasis(YAW, PITCH, WORLD_UP, m)
      ensures Valid()
    {
      new;
      Initialize(position, WORLD_UP, m);
    }

    /** A camera at the point (posX, posY, posZ) whose world up is +y. */
    constructor AtCoordinates(posX: real, posY: real, posZ: real, m: Libm)
      ensures position == Vec3(posX, posY, posZ) && worldUp == WORLD_UP
      ensures yaw == YAW && pitch == PITCH
      ensures movementSpeed == SPEED && mouseSensitivity == SENSITIVITY && zoom == ZOOM
      ensures CurrentBasis() == CameraBasis(YAW, PITCH, WORLD_UP, m)
      ensures Valid()
    {
      new;
      Initialize(Vec3(posX, posY, posZ), WORLD_UP, m);
    }

    /** The shared work of the constructors. */
    method Initialize(position: Vec3, up: Vec3, m: Libm)
      modifies this
      ensures this.position == position && worldUp == up
      ensures yaw == YAW && pitch == PITCH
      ensures movementSpeed == SPEED && mouseSensitivity == SENSITIVITY && zoom == ZOOM
      ensures CurrentBasis() == CameraBasis(YAW, PITCH, up, m)
      ensures Valid()
    {
      this.position := position;
      worldUp := up;
      yaw := YAW;
      pitch := PITCH;
      front, right, this.up := Origin, Origin, Origin;
      movementSpeed := SPEED;
      mouseSensitivity := SENSITIVITY;
      zoom := ZOOM;
      UpdateCameraVectors(m);
    }

    /** Recomputes front, right and up from the angles; nothing else changes. */
    method UpdateCameraVectors(m: Libm)
      modifies this
      ensures CurrentBasis() == CameraBasis(yaw, pitch, worldUp, m)
      ensures position == old(position) && worldUp == old(worldUp)
      ensures yaw == old(yaw) && pitch == old(pitch)
      ensures movementSpeed == old(movementSpeed) && mouseSensitivity == old(mouseSensitivity) && zoom == old(zoom)
    {
      var newFront := FrontDirection(yaw, pitch, m);
      front := m.normalize(newFront);
      right := m.normalize(Cross(front, worldUp));
      up := m.normalize(Cross(right, front));
    }

    /** Moves the camera along one of its axes by speed times the elapsed time; only the position changes. */
    method ProcessKeyboard(direction: CameraMovement, deltaTime: real)
      modifies this
      ensures position == Moved(old(position), direction, old(CurrentBasis()), old(movementSpeed) * deltaTime)
      ensures CurrentBasis() == old(CurrentBasis()) && worldUp == old(worldUp)
      ensures yaw == old(yaw) && pitch == old(pitch)
      ensures movementSpeed == old(movementSpeed) && mouseSensitivity == old(mouseSensitivity) && zoom == old(zoom)
    {
      var velocity := movementSpeed * deltaTime;
      if direction == Forward {
        position := Add(position, Scale(front, velocity));
      }
      if direction == Backward {
        position := Sub(position, Scale(front, velocity));
      }
      if direction == Left {
        position := Sub(position, Scale(right, velocity));
      }
      if direction == Right {
        position := Add(position, Scale(right, velocity));
      }
      if direction == Up {
        position := Add(position, Scale(up, velocity));
      }
      if direction == Down {
        position := Sub(position, Scale(up, velocity));
      }
    }

    /**
     * Turns the camera by the mouse offsets scaled by the sensitivity,
     * optionally keeping the pitch within 89 degrees, and recomputes the
     * basis.
     */
    method ProcessMouseMovement(xoffset: real, yoffset: real, constrainPitch: bool, m: Libm)
      modifies this
      ensures yaw == old(yaw) + xoffset * old(mouseSensitivity)
      ensures var p := old(pitch) + yoffset * old(mouseSensitivity);
              pitch == if constrainPitch then ClampPitch(p) else p
      ensures constrainPitch ==> -MAX_PITCH <= pitch <= MAX_PITCH
      ensures CurrentBasis() == CameraBasis(yaw, pitch, worldUp, m)
      ensures position == old(position) && worldUp == old(worldUp)
      ensures movementSpeed == old(movementSpeed) && mouseSensitivity == old(mouseSensitivity) && zoom == old(zoom)
    {
      var dx := xoffset * mouseSensitivity;
      var dy := yoffset * mouseSensitivity;
      yaw := yaw + dx;
      pitch := pitch + dy;
      ghost var p := pitch;
      if constrainPitch {
        if pitch > MAX_PITCH {
          pitch := MAX_PITCH;
        }
        if pitch < -MAX_PITCH {
          pitch := -MAX_PITCH;
        }
      }
      assert pitch == if constrainPitch then ClampPitch(p) else p;
      ghost var newYaw, newPitch := yaw, pitch;
      UpdateCameraVectors(m);
      assert yaw == newYaw && pitch == newPitch;
    }

    /** Narrows the field of view by the scroll offset, within [1, 120] degrees; only the zoom changes. */
    method ProcessMouseScroll(yoffset: real)
      modifies this
      ensures zoom == ScrolledZoom(old(zoom), yoffset)
      ensures MIN_ZOOM <= zoom <= MAX_ZOOM
      ensures old(Valid()) ==> Valid()
      ensures position == old(position) && CurrentBasis() == old(CurrentBasis()) && worldUp == old(worldUp)
      ensures yaw == old(yaw) && pitch == old(pitch)
      ensures movementSpeed == old(movementSpeed) && mouseSensitivity == old(mouseSensitivity)
    {
      zoom := zoom - yoffset;
      if zoom < MIN_ZOOM {
        zoom := MIN_ZOOM;
      }
      if zoom > MAX_ZOOM {
        zoom := MAX_ZOOM;
      }
    }

    /** One speed step up or down; only the movement speed changes, and it stays within its limits. */
    method AdjustSpeed(increase: bool)
      modifies this
      ensures movementSpeed == AdjustedSpeed(old(movementSpeed), increase)
      ensures old(Valid()) ==> Valid()
      ensures position == old(position) && CurrentBasis() == old(CurrentBasis()) && worldUp == old(worldUp)
      ensures yaw == old(yaw) && pitch == old(pitch)
      ensures mouseSensitivity == old(mouseSensitivity) && zoom == old(zoom)
    {
      if increase {
        movementSpeed := movementSpeed * SPEED_STEP;
        if movementSpeed > MAX_SPEED {
          movementSpeed := MAX_SPEED;
        }
      } else {
        movementSpeed := movementSpeed / SPEED_STEP;
        if movementSpeed < MIN_SPEED {
          movementSpeed := MIN_SPEED;
        }
      }
    }
  }
}
