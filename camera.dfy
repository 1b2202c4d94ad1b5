/**
  The player: the camera's position and its two view angles, with the
  movement methods of main.cpp and the mouse-motion update of its event loop.
 */
module Camera {
  import opened MathLib
  import opened Geometry

  /** The pitch limit: the camera can look at most 90 degrees up or down. */
  const HalfPi: real := Pi / 2.0

  /** How far move_forward(d) carries the player when the yaw is `yaw`. */
  function ForwardStep(m: Libm, yaw: real, d: real): Point3D
  {
    Point3D(m.sin(yaw) * d, 0.0, m.cos(yaw) * d)
  }

  /** How far move_left(d) carries the player when the yaw is `yaw`. */
  function LeftStep(m: Libm, yaw: real, d: real): Point3D
  {
    Point3D(-(m.cos(yaw) * d), 0.0, m.sin(yaw) * d)
  }

  /** The pitch after a mouse motion of `yrel` pixels. */
  function Pitch(vertical: real, yrel: int): (r: real)
    ensures -HalfPi <= r <= HalfPi
    ensures -HalfPi <= vertical + yrel as real / 400.0 <= HalfPi ==> r == vertical + yrel as real / 400.0
    ensures HalfPi < vertical + yrel as real / 400.0 ==> r == HalfPi
    ensures vertical + yrel as real / 400.0 < -HalfPi ==> r == -HalfPi
  {
    Clamp(vertical + (yrel as real) / 400.0, -Pi / 2.0, Pi / 2.0)
  }

  class Player {
    var pos: Point3D
    var verticalAngle: real
    var horizontalAngle: real

    constructor (x: real, y: real, z: real)
      ensures pos == Point3D(x, y, z)
      ensures horizontalAngle == 0.0 && verticalAngle == 0.0
    {
      pos := Point3D(x, y, z);
      horizontalAngle := 0.0;
      verticalAngle := 0.0;
    }

    method MoveForward(m: Libm, d: real)
      modifies this
      ensures pos == Add(old(pos), ForwardStep(m, horizontalAngle, d))
      ensures pos.y == old(pos.y)
      ensures horizontalAngle == old(horizontalAngle) && verticalAngle == old(verticalAngle)
    {
      pos := pos.(z := pos.z + m.cos(horizontalAngle) * d);
      pos := pos.(x := pos.x + m.sin(horizontalAngle) * d);
    }

    /** Moving backward by d is moving forward by -d. */
    method MoveBackward(m: Libm, d: real)
      modifies this
      ensures pos == Add(old(pos), ForwardStep(m, horizontalAngle, -d))
      ensures pos.y == old(pos.y)
      ensures horizontalAngle == old(horizontalAngle) && verticalAngle == old(verticalAngle)
    {
      MoveForward(m, -d);
    }

    method MoveLeft(m: Libm, d: real)
      modifies this
      ensures pos == Add(old(pos), LeftStep(m, horizontalAngle, d))
      ensures pos.y == old(pos.y)
      ensures horizontalAngle == old(horizontalAngle) && verticalAngle == old(verticalAngle)
    {
      pos := pos.(z := pos.z + m.sin(horizontalAngle) * d);
      pos := pos.(x := pos.x - m.cos(horizontalAngle) * d);
    }

    /** Moving right by d is moving left by -d. */
    method MoveRight(m: Libm, d: real)
      modifies this
      ensures pos == Add(old(pos), LeftStep(m, horizontalAngle, -d))
      ensures pos.y == old(pos.y)
      ensures horizontalAngle == old(horizontalAngle) && verticalAngle == old(verticalAngle)
    {
      MoveLeft(m, -d);
    }

    method MoveX(dx: real)
      modifies this
      ensures pos == old(pos).(x := old(pos.x) + dx)
      ensures horizontalAngle == old(horizontalAngle) && verticalAngle == old(verticalAngle)
    {
      pos := pos.(x := pos.x + dx);
    }

    /** A move along the world's vertical axis, whatever the view angles. */
    method MoveY(dy: real)
      modifies this
      ensures pos == old(pos).(y := old(pos.y) + dy)
      ensures horizontalAngle == old(horizontalAngle) && verticalAngle == old(verticalAngle)
    {
      pos := pos.(y := pos.y + dy);
    }

    method MoveZ(dz: real)
      modifies this
      ensures pos == old(pos).(z := old(pos.z) + dz)
      ensures horizontalAngle == old(horizontalAngle) && verticalAngle == old(verticalAngle)
    {
      pos := pos.(z := pos.z + dz);
    }

    /**
      The SDL_MOUSEMOTION case of the event loop: the pitch follows yrel and
      stays within [-pi/2, pi/2]; the yaw follows xrel and is never normalised.
     */
    method OnMouseMotion(xrel: int, yrel: int)
      modifies this
      ensures -HalfPi <= verticalAngle <= HalfPi
      ensures verticalAngle == Pitch(old(verticalAngle), yrel)
      ensures horizontalAngle == old(horizontalAngle) + xrel as real / 400.0
      ensures pos == old(pos)
    {
      verticalAngle := Clamp(verticalAngle + (yrel as real) / 400.0, -Pi / 2.0, Pi / 2.0);
      horizontalAngle := horizontalAngle + (xrel as real) / 400.0;
    }
  }

  /** A backward move of d undoes a forward move of d, and a right move undoes a left one. */
  lemma OppositeMovesCancel(m: Libm, yaw: real, p: Point3D, d: real)
    ensures Add(Add(p, ForwardStep(m, yaw, d)), ForwardStep(m, yaw, -d)) == p
    ensures Add(Add(p, LeftStep(m, yaw, d)), LeftStep(m, yaw, -d)) == p
  {
  }

  /** Walking forward and strafing left are at right angles, and move by |d| when sin^2 + cos^2 = 1. */
  lemma StepsAreOrthogonal(m: Libm, yaw: real, d: real)
    ensures var f, l := ForwardStep(m, yaw, d), LeftStep(m, yaw, d);
      f.x * l.x + f.y * l.y + f.z * l.z == 0.0
    ensures Pythagorean(m, yaw) ==>
      var f, l := ForwardStep(m, yaw, d), LeftStep(m, yaw, d);
      f.x * f.x + f.z * f.z == d * d && l.x * l.x + l.z * l.z == d * d
  {
    var s, c := m.sin(yaw), m.cos(yaw);
    assert (s * d) * (-(c * d)) + (c * d) * (s * d) == 0.0;
    if Pythagorean(m, yaw) {
      calc {
        (s * d) * (s * d) + (c * d) * (c * d);
        (s * s + c * c) * (d * d);
        d * d;
      }
    }
  }

  /** With sin(0) = 0 and cos(0) = 1, facing yaw 0 walks along +z and strafes along -x. */
  lemma StepsAtZeroYaw(m: Libm, d: real)
    requires m.sin(0.0) == 0.0 && m.cos(0.0) == 1.0
    ensures ForwardStep(m, 0.0, d) == Point3D(0.0, 0.0, d)
    ensures LeftStep(m, 0.0, d) == Point3D(-d, 0.0, 0.0)
  {
  }

  /** Once the pitch is at its upper limit, no downward-looking motion moves it. */
  lemma PitchSaturates(vertical: real, yrel: int)
    requires yrel >= 0 && vertical == HalfPi
    ensures Pitch(vertical, yrel) == HalfPi
    ensures Pitch(0.0, 1000) == HalfPi
  {
  }
}
