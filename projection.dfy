/**
  The camera transform: rotation about the vertical axis, the two `project`
  overloads with their depth floor, and their composition.
 */
module Projection {
  import opened MathLib
  import opened Geometry
  import opened Camera

  const FovInDegrees: real := 120.0
  const Fov: real := FovInDegrees * Pi / 180.0

  /** tana2 = tan(FOV / 2), computed once at start-up: the tangent of 60 degrees. */
  function Tana2(m: Libm): (t: real)
    ensures t == m.tan(Pi / 3.0)
  {
    m.tan(Fov / 2.0)
  }

  /** The depth a projection divides by: camera-relative z, floored at 1. */
  function Depth(z: real): (d: real)
    ensures d >= 1.0
    ensures z >= 1.0 ==> d == z
    ensures z < 1.0 ==> d == 1.0
  {
    if z < 1.0 then 1.0 else z
  }

  /** rotate_y: a rotation by `angle` in the X-Z plane. */
  function RotateY(m: Libm, angle: real, p: Point3D): (r: Point3D)
    ensures r.y == p.y
  {
    Point3D(p.x * m.cos(angle) + p.z * m.sin(angle), p.y, -m.sin(angle) * p.x + m.cos(angle) * p.z)
  }

  /** rotate_y_around_point: translate `origin` to zero, rotate, translate back. */
  function RotateYAroundPoint(m: Libm, angle: real, p: Point3D, origin: Point3D): (r: Point3D)
    ensures r.y == p.y
  {
    var p1 := Sub(p, origin);
    var p2 := RotateY(m, angle, p1);
    Add(p2, origin)
  }

  /** project(Point3D): the perspective divide of a camera-relative point. */
  function Project(m: Libm, p3: Point3D): Point2D
    requires Tana2(m) > 0.0
  {
    var z := Depth(p3.z);
    assert z * Tana2(m) >= Tana2(m) > 0.0 by { DivisorBound(z, Tana2(m)); }
    Point2D(p3.x / (z * Tana2(m)), p3.y / (z * Tana2(m)))
  }

  /**
    project(Point3D, Player&): the same divide, after subtracting the
    player's position.
   */
  function ProjectForPlayer(m: Libm, p3: Point3D, player: Player): Point2D
    reads player
    requires Tana2(m) > 0.0
  {
    var q := Sub(p3, player.pos);
    var z := Depth(q.z);
    assert z * Tana2(m) >= Tana2(m) > 0.0 by { DivisorBound(z, Tana2(m)); }
    Point2D(q.x / (z * Tana2(m)), q.y / (z * Tana2(m)))
  }

  /** project_with_camera: rotate the world by minus the yaw about the player, then project. */
  function ProjectWithCamera(m: Libm, p: Point3D, player: Player): Point2D
    reads player
    requires Tana2(m) > 0.0
  {
    ProjectForPlayer(m, RotateYAroundPoint(m, -player.horizontalAngle, p, player.pos), player)
  }

  /**
    The camera transform for any yaw: take the point relative to the player,
    turn it by minus the yaw, and apply the perspective divide.
   */
  lemma CameraTransform(m: Libm, p: Point3D, player: Player)
    requires Tana2(m) > 0.0
    ensures ProjectWithCamera(m, p, player) == Project(m, RotateY(m, -player.horizontalAngle, Sub(p, player.pos)))
  {
    SubUndoesAdd(RotateY(m, -player.horizontalAngle, Sub(p, player.pos)), player.pos);
  }

  /**
    The perspective divide undone: the projected point times the divisor
    max(z, 1) * tana2 gives back x and y.
   */
  lemma ProjectDivides(m: Libm, p3: Point3D)
    requires Tana2(m) > 0.0
    ensures Project(m, p3).x * (Depth(p3.z) * Tana2(m)) == p3.x
    ensures Project(m, p3).y * (Depth(p3.z) * Tana2(m)) == p3.y
  {
    DivisorBound(Depth(p3.z), Tana2(m));
  }

  /**
    The divisor is positive, so both overloads keep sides: a point left of
    (above) the player's line of sight projects left of (above) the centre,
    and a point on it projects onto the centre line.
   */
  lemma ProjectKeepsSides(m: Libm, p3: Point3D, player: Player)
    requires Tana2(m) > 0.0
    ensures var r := Project(m, p3);
      (r.x < 0.0 <==> p3.x < 0.0) && (r.x == 0.0 <==> p3.x == 0.0)
      && (r.y < 0.0 <==> p3.y < 0.0) && (r.y == 0.0 <==> p3.y == 0.0)
    ensures var r := ProjectForPlayer(m, p3, player);
      (r.x < 0.0 <==> p3.x < player.pos.x) && (r.x == 0.0 <==> p3.x == player.pos.x)
      && (r.y < 0.0 <==> p3.y < player.pos.y) && (r.y == 0.0 <==> p3.y == player.pos.y)
  {
    var t := Tana2(m);
    DivisorBound(Depth(p3.z), t);
    DivSign(p3.x, Depth(p3.z) * t);
    DivSign(p3.y, Depth(p3.z) * t);
    var q := Sub(p3, player.pos);
    DivisorBound(Depth(q.z), t);
    DivSign(q.x, Depth(q.z) * t);
    DivSign(q.y, Depth(q.z) * t);
  }

  /** Dividing by a positive number keeps the sign. */
  lemma DivSign(a: real, b: real)
    requires b > 0.0
    ensures (a / b < 0.0 <==> a < 0.0) && (a / b == 0.0 <==> a == 0.0)
  {
    assert (a / b) * b == a;
  }

  /** A depth of at least 1 makes the divisor at least tana2. */
  lemma DivisorBound(z: real, t: real)
    requires z >= 1.0 && t > 0.0
    ensures z * t >= t
  {
    assert z * t - t == (z - 1.0) * t;
  }

  /**
    The depth floor: the divisor of both overloads is never below tana2, and a
    point nearer than depth 1 (or behind the camera) projects exactly as if it
    were at depth 1.
   */
  lemma DepthFloor(m: Libm, p3: Point3D, player: Player)
    requires Tana2(m) > 0.0
    ensures Depth(p3.z) * Tana2(m) >= Tana2(m)
    ensures p3.z < 1.0 ==> Project(m, p3) == Project(m, p3.(z := 1.0))
    ensures var q := Sub(p3, player.pos);
      q.z < 1.0 ==> ProjectForPlayer(m, p3, player) == Project(m, q.(z := 1.0))
  {
    DivisorBound(Depth(p3.z), Tana2(m));
  }

  /** The second overload is the first applied to the player-relative point. */
  lemma ProjectOverloadsAgree(m: Libm, p3: Point3D, player: Player)
    requires Tana2(m) > 0.0
    ensures ProjectForPlayer(m, p3, player) == Project(m, Sub(p3, player.pos))
  {
  }

  /**
    Points on one ray from the camera, at depth 1 or more, project to the
    same normalized point.
   */
  lemma SameRaySamePoint(m: Libm, p3: Point3D, k: real)
    requires Tana2(m) > 0.0
    requires p3.z >= 1.0 && k >= 1.0
    ensures Project(m, Scale(p3, k)) == Project(m, p3)
  {
    var t := Tana2(m);
    var q := Scale(p3, k);
    assert q.z >= 1.0 by { DivisorBound(p3.z, k); }
    ProjectAtDepth(m, p3);
    ProjectAtDepth(m, q);
    RatioScales(p3.x, p3.z, t, k);
    RatioScales(p3.y, p3.z, t, k);
  }

  /** At depth 1 or more the divisor is the depth itself times tana2. */
  lemma ProjectAtDepth(m: Libm, p: Point3D)
    requires Tana2(m) > 0.0 && p.z >= 1.0
    ensures Project(m, p) == Point2D(p.x / (p.z * Tana2(m)), p.y / (p.z * Tana2(m)))
  {
  }

  /** Scaling a coordinate and its depth by the same k leaves their ratio unchanged. */
  lemma RatioScales(a: real, z: real, t: real, k: real)
    requires z >= 1.0 && t > 0.0 && k >= 1.0
    ensures (a * k) / ((z * k) * t) == a / (z * t)
  {
    DivisorBound(z, t);
    assert (z * k) * t == (z * t) * k;
    CancelFactor(a, z * t, k);
  }

  lemma CancelFactor(a: real, b: real, k: real)
    requires b > 0.0 && k > 0.0
    ensures (a * k) / (b * k) == a / b
  {
    assert b * k > 0.0;
    assert (a / b) * (b * k) == a * k;
  }

  /** With sin(0) = 0 and cos(0) = 1, turning by 0 leaves every point where it is. */
  lemma RotateByZero(m: Libm, p: Point3D)
    requires m.sin(0.0) == 0.0 && m.cos(0.0) == 1.0
    ensures RotateY(m, 0.0, p) == p
  {
  }

  /** Rotation keeps the distance from the vertical axis when sin^2 + cos^2 = 1. */
  lemma RotateKeepsPlanarDistance(m: Libm, angle: real, p: Point3D)
    requires Pythagorean(m, angle)
    ensures var r := RotateY(m, angle, p); r.x * r.x + r.z * r.z == p.x * p.x + p.z * p.z
  {
    var s, c := m.sin(angle), m.cos(angle);
    var r := RotateY(m, angle, p);
    calc {
      r.x * r.x + r.z * r.z;
      (p.x * c + p.z * s) * (p.x * c + p.z * s) + (-s * p.x + c * p.z) * (-s * p.x + c * p.z);
      (p.x * p.x + p.z * p.z) * (s * s + c * c);
      p.x * p.x + p.z * p.z;
    }
  }

  /** Turning by -angle undoes turning by angle. */
  lemma RotateInverse(m: Libm, angle: real, p: Point3D)
    requires Pythagorean(m, angle) && Parity(m, angle)
    ensures RotateY(m, -angle, RotateY(m, angle, p)) == p
  {
    var s, c := m.sin(angle), m.cos(angle);
    var q := RotateY(m, angle, p);
    var r := RotateY(m, -angle, q);
    calc {
      r.x;
      q.x * c + q.z * -s;
      (p.x * c + p.z * s) * c - (-s * p.x + c * p.z) * s;
      p.x * (s * s + c * c);
      p.x;
    }
    calc {
      r.z;
      -(-s) * q.x + c * q.z;
      s * (p.x * c + p.z * s) + c * (-s * p.x + c * p.z);
      p.z * (s * s + c * c);
      p.z;
    }
  }

  /** The pivot of a rotation does not move, and turning back about the same pivot restores a point. */
  lemma PivotRotation(m: Libm, angle: real, p: Point3D, origin: Point3D)
    ensures RotateYAroundPoint(m, angle, origin, origin) == origin
    ensures Pythagorean(m, angle) && Parity(m, angle) ==>
      RotateYAroundPoint(m, -angle, RotateYAroundPoint(m, angle, p, origin), origin) == p
  {
    SubSelfIsZero(origin);
    assert RotateY(m, angle, Zero) == Zero;
    if Pythagorean(m, angle) && Parity(m, angle) {
      var q := RotateYAroundPoint(m, angle, p, origin);
      SubUndoesAdd(RotateY(m, angle, Sub(p, origin)), origin);
      RotateInverse(m, angle, Sub(p, origin));
      SubUndoesAdd(p, origin);
    }
  }

  /** The camera's own position projects to the centre of the normalized plane. */
  lemma CameraPositionProjectsToCentre(m: Libm, player: Player)
    requires Tana2(m) > 0.0
    ensures ProjectWithCamera(m, player.pos, player) == Point2D(0.0, 0.0)
  {
    PivotRotation(m, -player.horizontalAngle, player.pos, player.pos);
    SubSelfIsZero(player.pos);
  }

  /**
    At yaw 0 (with sin(0) = 0 and cos(0) = 1) the camera transform is the
    plain perspective divide of the player-relative point.
   */
  lemma ZeroYawIsPerspectiveDivide(m: Libm, p: Point3D, player: Player)
    requires Tana2(m) > 0.0
    requires m.sin(0.0) == 0.0 && m.cos(0.0) == 1.0
    requires player.horizontalAngle == 0.0
    requires p.z - player.pos.z >= 1.0
    ensures ProjectWithCamera(m, p, player) ==
      Point2D((p.x - player.pos.x) / ((p.z - player.pos.z) * Tana2(m)),
              (p.y - player.pos.y) / ((p.z - player.pos.z) * Tana2(m)))
  {
    RotateByZero(m, Sub(p, player.pos));
    SubUndoesAdd(p, player.pos);
  }

  /**
    The point the player would reach by moving forward lies straight ahead:
    whatever the yaw, it projects to the centre of the normalized plane
    (given only that sin is odd and cos is even at the yaw).
   */
  lemma ForwardIsStraightAhead(m: Libm, player: Player, d: real)
    requires Tana2(m) > 0.0
    requires Parity(m, player.horizontalAngle)
    ensures ProjectWithCamera(m, Add(player.pos, ForwardStep(m, player.horizontalAngle, d)), player) == Point2D(0.0, 0.0)
  {
    var a := player.horizontalAngle;
    var s, c := m.sin(a), m.cos(a);
    var step := ForwardStep(m, a, d);
    SubUndoesAdd(step, player.pos);
    assert Sub(Add(player.pos, step), player.pos) == step;
    var r := RotateY(m, -a, step);
    assert r.x == 0.0 by {
      calc {
        r.x;
        (s * d) * c + (c * d) * -s;
        0.0;
      }
    }
    SubUndoesAdd(r, player.pos);
  }
}
