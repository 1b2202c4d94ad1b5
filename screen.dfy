/**
  Screen mapping: from a normalized projection to a pixel position clamped to
  an overscan rectangle 500 px wider than the window on every side, and the
  bounds test the cube uses before drawing a face.
 */
module ScreenMapping {
  import opened MathLib
  import opened Geometry
  import opened Camera
  import opened Projection

  /** The window size (the globals screen_width and screen_height). */
  datatype Screen = Screen(width: nat, height: nat)

  /** Whether p lies in the overscan rectangle [-500, w + 500] x [-500, h + 500]. */
  predicate InOverscan(s: Screen, p: Point2D)
  {
    -500.0 <= p.x <= s.width as real + 500.0 && -500.0 <= p.y <= s.height as real + 500.0
  }

  /**
    place_projected_point: both axes are scaled by the window WIDTH, then
    centred, then clamped to the overscan rectangle, saturating at the
    nearest edge.
   */
  function PlaceProjectedPoint(s: Screen, point: Point2D): (r: Point2D)
    ensures InOverscan(s, r)
    ensures var px := point.x * s.width as real + s.width as real / 2.0;
      (-500.0 <= px <= s.width as real + 500.0 ==> r.x == px)
      && (px < -500.0 ==> r.x == -500.0)
      && (s.width as real + 500.0 < px ==> r.x == s.width as real + 500.0)
    ensures var py := point.y * s.width as real + s.height as real / 2.0;
      (-500.0 <= py <= s.height as real + 500.0 ==> r.y == py)
      && (py < -500.0 ==> r.y == -500.0)
      && (s.height as real + 500.0 < py ==> r.y == s.height as real + 500.0)
  {
    var w, h := s.width as real, s.height as real;
    Point2D(Clamp(point.x * w + w * 0.5, -500.0, w + 500.0),
            Clamp(point.y * w + h * 0.5, -500.0, h + 500.0))
  }

  /** get_onscreen_point: the whole pipeline, world point to pixel. */
  function GetOnscreenPoint(m: Libm, s: Screen, p: Point3D, player: Player): (r: Point2D)
    reads player
    requires Tana2(m) > 0.0
    ensures InOverscan(s, r)
  {
    PlaceProjectedPoint(s, ProjectWithCamera(m, p, player))
  }

  /**
    Cube::check_point as written. Its y-test is the chained comparison
    `-500 <= p.y <= screen_height + 500`, which C++ reads as
    `(int)(-500 <= p.y) <= screen_height + 500`: a 0 or 1 compared with the height.
    So the test looks at x only: its y-test holds for every point.
   */
  predicate CheckPoint(s: Screen, p: Point2D)
    ensures CheckPoint(s, p) <==> -500.0 <= p.x <= s.width as real + 500.0
  {
    (-500.0 <= p.x && p.x <= (s.width + 500) as real)
    && (if -500.0 <= p.y then 1 else 0) <= s.height + 500
  }

  /** check_point as evidently intended: both coordinates inside the overscan rectangle. */
  predicate CheckPointIntended(s: Screen, p: Point2D)
  {
    (-500.0 <= p.x && p.x <= (s.width + 500) as real)
    && (-500.0 <= p.y && p.y <= (s.height + 500) as real)
  }

  /** A point far above the window passes the as-written check but not the intended one. */
  lemma CheckPointAcceptsOffscreenY()
    ensures CheckPoint(Screen(800, 600), Point2D(0.0, -1000.0))
    ensures !CheckPointIntended(Screen(800, 600), Point2D(0.0, -1000.0))
  {
  }

  /** The intended check accepts exactly the overscan rectangle, y included. */
  lemma CheckPointIntendedIsOverscan(s: Screen, p: Point2D)
    ensures CheckPointIntended(s, p) <==> InOverscan(s, p)
    ensures CheckPointIntended(s, p) ==> CheckPoint(s, p)
  {
  }

  /**
    Every point the pipeline produces passes both checks, so on the points
    the cube actually tests the defect cannot be observed.
   */
  lemma PlacedPointsPassCheck(s: Screen, q: Point2D)
    ensures CheckPoint(s, PlaceProjectedPoint(s, q))
    ensures CheckPointIntended(s, PlaceProjectedPoint(s, q))
  {
  }

  /** The camera's own position lands on the centre of the window. */
  lemma CameraPositionMapsToCentre(m: Libm, s: Screen, player: Player)
    requires Tana2(m) > 0.0
    ensures GetOnscreenPoint(m, s, player.pos, player) == Point2D(s.width as real / 2.0, s.height as real / 2.0)
  {
    CameraPositionProjectsToCentre(m, player);
  }

  /** A point straight ahead of the player (where moving forward leads) lands on the window centre. */
  lemma ForwardPointMapsToCentre(m: Libm, s: Screen, player: Player, d: real)
    requires Tana2(m) > 0.0
    requires Parity(m, player.horizontalAngle)
    ensures GetOnscreenPoint(m, s, Add(player.pos, ForwardStep(m, player.horizontalAngle, d)), player)
      == Point2D(s.width as real / 2.0, s.height as real / 2.0)
  {
    ForwardIsStraightAhead(m, player, d);
  }
}
