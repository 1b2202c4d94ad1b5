/**
  The two shapes of the scene. A cube is drawn as up to four closed
  polylines, one per face of a constant table; the axes are drawn as eleven
  line segments. Drawing returns what would be handed to the renderer.
 */
module Shapes {
  import opened Geometry
  import opened MathLib
  import opened Camera
  import opened Projection
  import opened ScreenMapping

  /** A quad: exactly four vertices (typedef Point3D Face[4]). */
  type Face = f: seq<Point3D> | |f| == 4
    witness [Point3D(0.0, 0.0, 0.0), Point3D(0.0, 0.0, 0.0), Point3D(0.0, 0.0, 0.0), Point3D(0.0, 0.0, 0.0)]

  /**
    cube_faces: bottom, top, front and back, each a quad in the unit cube's
    local space. The left and right faces are not in the table.
   */
  const CubeFaces: seq<Face> := [
    // Bottom
    [Point3D(-0.5, 0.5, -0.5), Point3D(0.5, 0.5, -0.5), Point3D(0.5, 0.5, 0.5), Point3D(-0.5, 0.5, 0.5)],
    // Top
    [Point3D(-0.5, -0.5, -0.5), Point3D(0.5, -0.5, -0.5), Point3D(0.5, -0.5, 0.5), Point3D(-0.5, -0.5, 0.5)],
    // Front
    [Point3D(-0.5, -0.5, 0.5), Point3D(0.5, -0.5, 0.5), Point3D(0.5, 0.5, 0.5), Point3D(-0.5, 0.5, 0.5)],
    // Back
    [Point3D(-0.5, -0.5, -0.5), Point3D(0.5, -0.5, -0.5), Point3D(0.5, 0.5, -0.5), Point3D(-0.5, 0.5, -0.5)]
  ]

  predicate IsHalf(v: real)
  {
    v == 0.5 || v == -0.5
  }

  /** A corner of the cube of side 1 centred on the origin. */
  predicate IsCorner(p: Point3D)
  {
    IsHalf(p.x) && IsHalf(p.y) && IsHalf(p.z)
  }

  /** Two corners joined by an edge of that cube: they differ in exactly one coordinate. */
  predicate IsEdge(p: Point3D, q: Point3D)
  {
    (if p.x == q.x then 0 else 1) + (if p.y == q.y then 0 else 1) + (if p.z == q.z then 0 else 1) == 1
  }

  /** The table holds four quads whose vertices are cube corners and whose sides are cube edges. */
  lemma CubeFacesAreQuads()
    ensures |CubeFaces| == 4
    ensures forall i | 0 <= i < 4 :: |CubeFaces[i]| == 4
    ensures forall i, j | 0 <= i < 4 && 0 <= j < 4 ::
      IsCorner(CubeFaces[i][j]) && IsEdge(CubeFaces[i][j], CubeFaces[i][(j + 1) % 4])
  {
    forall i, j | 0 <= i < 4 && 0 <= j < 4
      ensures IsCorner(CubeFaces[i][j]) && IsEdge(CubeFaces[i][j], CubeFaces[i][(j + 1) % 4])
    {
      var f := CubeFaces[i];
      assert IsCorner(f[0]) && IsCorner(f[1]) && IsCorner(f[2]) && IsCorner(f[3]);
      assert IsEdge(f[0], f[1]) && IsEdge(f[1], f[2]) && IsEdge(f[2], f[3]) && IsEdge(f[3], f[0]);
    }
  }

  /** Vertex j of face i, scaled by `scale` and moved to `pos`: cube_faces[i][j] * m_scale + m_pos. */
  function WorldVertex(faces: seq<Face>, pos: Point3D, scale: real, i: nat, j: nat): Point3D
    requires i < |faces| && j < 4
  {
    Add(Scale(faces[i][j], scale), pos)
  }

  /** The vertices j, j+1, ..., 3 of face i, on screen. */
  function FaceVertices(m: Libm, s: Screen, player: Player, faces: seq<Face>, pos: Point3D, scale: real, i: nat, j: nat): (vs: seq<Point2D>)
    reads player
    requires Tana2(m) > 0.0 && i < |faces| && j <= 4
    ensures |vs| == 4 - j
    ensures forall k | 0 <= k < |vs| :: InOverscan(s, vs[k])
    decreases 4 - j
  {
    if j == 4 then []
    else
      var v := GetOnscreenPoint(m, s, WorldVertex(faces, pos, scale, i, j), player);
      [v] + FaceVertices(m, s, player, faces, pos, scale, i, j + 1)
  }

  /** The closed polyline of face i: its four vertices, then the first one again. */
  function FacePolyline(m: Libm, s: Screen, player: Player, faces: seq<Face>, pos: Point3D, scale: real, i: nat): seq<Point2D>
    reads player
    requires Tana2(m) > 0.0 && i < |faces|
  {
    var vs := FaceVertices(m, s, player, faces, pos, scale, i, 0);
    vs + [vs[0]]
  }

  /**
    The polylines drawn for faces i, i+1, ... of `faces`: drawing stops
    altogether at the first face whose first vertex fails check_point. The
    test is check_point as intended; AsWrittenDrawsTheSame shows that the
    as-written test decides every face the same way.
   */
  function FacesFrom(m: Libm, s: Screen, player: Player, faces: seq<Face>, pos: Point3D, scale: real, i: nat): seq<seq<Point2D>>
    reads player
    requires Tana2(m) > 0.0 && i <= |faces|
    decreases |faces| - i
  {
    if i == |faces| then []
    else
      var poly := FacePolyline(m, s, player, faces, pos, scale, i);
      if !CheckPointIntended(s, poly[0]) then []
      else [poly] + FacesFrom(m, s, player, faces, pos, scale, i + 1)
  }

  /** FacesFrom with check_point exactly as written at main.cpp:225. */
  function FacesFromAsWritten(m: Libm, s: Screen, player: Player, faces: seq<Face>, pos: Point3D, scale: real, i: nat): seq<seq<Point2D>>
    reads player
    requires Tana2(m) > 0.0 && i <= |faces|
    decreases |faces| - i
  {
    if i == |faces| then []
    else
      var poly := FacePolyline(m, s, player, faces, pos, scale, i);
      if !CheckPoint(s, poly[0]) then []
      else [poly] + FacesFromAsWritten(m, s, player, faces, pos, scale, i + 1)
  }

  /** Entry k of FaceVertices(.., j) is vertex j + k of the face, on screen. */
  lemma {:induction false} FaceVerticesAt(m: Libm, s: Screen, player: Player, faces: seq<Face>, pos: Point3D, scale: real, i: nat, j: nat, k: nat)
    requires Tana2(m) > 0.0 && i < |faces| && j <= k < 4
    ensures FaceVertices(m, s, player, faces, pos, scale, i, j)[k - j]
      == GetOnscreenPoint(m, s, WorldVertex(faces, pos, scale, i, k), player)
    decreases k - j
  {
    if j < k {
      FaceVerticesAt(m, s, player, faces, pos, scale, i, j + 1, k);
    }
  }

  /** Four points that are the on-screen vertices of face i, in order, are FaceVertices of face i. */
  lemma FaceVerticesExactly(m: Libm, s: Screen, player: Player, faces: seq<Face>, pos: Point3D, scale: real, i: nat, q: seq<Point2D>)
    requires Tana2(m) > 0.0 && i < |faces| && |q| == 4
    requires forall k | 0 <= k < 4 :: q[k] == GetOnscreenPoint(m, s, WorldVertex(faces, pos, scale, i, k), player)
    ensures q == FaceVertices(m, s, player, faces, pos, scale, i, 0)
  {
    forall k | 0 <= k < 4
      ensures q[k] == FaceVertices(m, s, player, faces, pos, scale, i, 0)[k]
    {
      FaceVerticesAt(m, s, player, faces, pos, scale, i, 0, k);
    }
  }

  /**
    One step of the face loop: if face i fails the check the polylines drawn
    so far are all there is; otherwise face i's polyline comes next.
   */
  lemma FacesFromStep(m: Libm, s: Screen, player: Player, faces: seq<Face>, pos: Point3D, scale: real, i: nat, done: seq<seq<Point2D>>)
    requires Tana2(m) > 0.0 && i < |faces|
    requires done + FacesFrom(m, s, player, faces, pos, scale, i) == FacesFrom(m, s, player, faces, pos, scale, 0)
    ensures var poly := FacePolyline(m, s, player, faces, pos, scale, i);
      if CheckPointIntended(s, poly[0])
      then (done + [poly]) + FacesFrom(m, s, player, faces, pos, scale, i + 1) == FacesFrom(m, s, player, faces, pos, scale, 0)
      else done == FacesFrom(m, s, player, faces, pos, scale, 0)
  {
    var poly := FacePolyline(m, s, player, faces, pos, scale, i);
    if CheckPointIntended(s, poly[0]) {
      assert (done + [poly]) + FacesFrom(m, s, player, faces, pos, scale, i + 1)
        == done + FacesFrom(m, s, player, faces, pos, scale, i);
    }
  }

  /** A five-point buffer holding a quad and then its first point again is the closed polyline of the quad. */
  lemma ClosedBuffer(q: seq<Point2D>, quad: seq<Point2D>)
    requires |q| == 5 && |quad| == 4
    requires forall k | 0 <= k < 4 :: q[k] == quad[k]
    requires q[4] == quad[0]
    ensures q == quad + [quad[0]]
  {
  }

  /** Everything one call of Cube::draw hands to the renderer, in order. */
  function CubeOutline(m: Libm, s: Screen, player: Player, pos: Point3D, scale: real): seq<seq<Point2D>>
    reads player
    requires Tana2(m) > 0.0
  {
    FacesFrom(m, s, player, CubeFaces, pos, scale, 0)
  }

  class Cube {
    var pos: Point3D
    var scale: real

    constructor (pos: Point3D, scale: real)
      ensures this.pos == pos && this.scale == scale
    {
      this.pos := pos;
      this.scale := scale;
    }

    /** Cube::move; y and z default to 0. The size never changes. */
    method Move(x: real, y: real := 0.0, z: real := 0.0)
      modifies this
      ensures pos == Add(old(pos), Point3D(x, y, z))
      ensures scale == old(scale)
    {
      pos := pos.(x := pos.x + x);
      pos := pos.(y := pos.y + y);
      pos := pos.(z := pos.z + z);
    }

    /**
      The inner loop of Cube::draw: the four vertices of face i, scaled,
      placed and projected, in a buffer of five points.
     */
    method ProjectFace(m: Libm, s: Screen, player: Player, faces: seq<Face>, i: nat) returns (pts: array<Point2D>)
      requires Tana2(m) > 0.0 && i < |faces|
      ensures fresh(pts) && pts.Length == 5
      ensures pts[..4] == FaceVertices(m, s, player, faces, pos, scale, i, 0)
    {
      pts := new Point2D[5];
      for j := 0 to 4
        invariant forall k | 0 <= k < j :: pts[k] == GetOnscreenPoint(m, s, WorldVertex(faces, pos, scale, i, k), player)
      {
        var v := Add(Scale(faces[i][j], scale), pos);
        assert v == WorldVertex(faces, pos, scale, i, j);
        pts[j] := GetOnscreenPoint(m, s, v, player);
      }
      FaceVerticesExactly(m, s, player, faces, pos, scale, i, pts[..4]);
    }

    /**
      The loop of Cube::draw over a table of faces: project each face's four
      vertices; give up on the whole cube if the first vertex fails the
      check; otherwise close the buffer with its first point and emit it.
     */
    method DrawFaces(m: Libm, s: Screen, player: Player, faces: seq<Face>) returns (polylines: seq<seq<Point2D>>)
      requires Tana2(m) > 0.0
      ensures polylines == FacesFrom(m, s, player, faces, pos, scale, 0)
    {
      polylines := [];
      for i := 0 to |faces|
        invariant polylines + FacesFrom(m, s, player, faces, pos, scale, i) == FacesFrom(m, s, player, faces, pos, scale, 0)
      {
        var pts := ProjectFace(m, s, player, faces, i);
        ghost var quad := pts[..4];
        FacesFromStep(m, s, player, faces, pos, scale, i, polylines);
        assert pts[0] == quad[0];
        if !CheckPointIntended(s, pts[0]) {
          return;
        }
        pts[4] := pts[0];
        ClosedBuffer(pts[..], quad);
        polylines := polylines + [pts[..]];
      }
    }

    /** Cube::draw: the face loop over the constant table cube_faces. */
    method Draw(m: Libm, s: Screen, player: Player) returns (polylines: seq<seq<Point2D>>)
      requires Tana2(m) > 0.0
      ensures polylines == CubeOutline(m, s, player, pos, scale)
    {
      polylines := DrawFaces(m, s, player, CubeFaces);
    }
  }

  /** The faces are drawn in table order, at most one polyline per remaining face. */
  lemma {:induction false} FacesFromInOrder(m: Libm, s: Screen, player: Player, faces: seq<Face>, pos: Point3D, scale: real, i: nat)
    requires Tana2(m) > 0.0 && i <= |faces|
    ensures |FacesFrom(m, s, player, faces, pos, scale, i)| <= |faces| - i
    ensures forall k | 0 <= k < |FacesFrom(m, s, player, faces, pos, scale, i)| ::
      i + k < |faces| && FacesFrom(m, s, player, faces, pos, scale, i)[k] == FacePolyline(m, s, player, faces, pos, scale, i + k)
    decreases |faces| - i
  {
    if i < |faces| && CheckPointIntended(s, FacePolyline(m, s, player, faces, pos, scale, i)[0]) {
      FacesFromInOrder(m, s, player, faces, pos, scale, i + 1);
    }
  }

  /**
    Every polyline Cube::draw emits is closed and has five points: the four
    vertices of face k, in table order, then the first again.
   */
  lemma OutlinePolylinesAreClosed(m: Libm, s: Screen, player: Player, pos: Point3D, scale: real)
    requires Tana2(m) > 0.0
    ensures |CubeOutline(m, s, player, pos, scale)| <= 4
    ensures forall k | 0 <= k < |CubeOutline(m, s, player, pos, scale)| ::
      var poly := CubeOutline(m, s, player, pos, scale)[k];
      |poly| == 5 && poly[4] == poly[0]
      && forall j | 0 <= j < 4 :: poly[j] == GetOnscreenPoint(m, s, WorldVertex(CubeFaces, pos, scale, k, j), player)
  {
    FacesFromInOrder(m, s, player, CubeFaces, pos, scale, 0);
    forall k, j | 0 <= k < |CubeOutline(m, s, player, pos, scale)| && 0 <= j < 4
      ensures CubeOutline(m, s, player, pos, scale)[k][j] == GetOnscreenPoint(m, s, WorldVertex(CubeFaces, pos, scale, k, j), player)
    {
      FaceVerticesAt(m, s, player, CubeFaces, pos, scale, k, 0, j);
    }
  }

  /**
    Drawing stops exactly at the first face whose first vertex fails the
    check: every face before it passed, and no face from a failing one on is
    drawn.
   */
  lemma {:induction false} DrawingStopsAtFirstFailure(m: Libm, s: Screen, player: Player, faces: seq<Face>, pos: Point3D, scale: real, i: nat)
    requires Tana2(m) > 0.0 && i <= |faces|
    ensures var n := |FacesFrom(m, s, player, faces, pos, scale, i)|;
      i + n <= |faces|
      && (forall k | i <= k < i + n :: CheckPointIntended(s, FacePolyline(m, s, player, faces, pos, scale, k)[0]))
      && (i + n < |faces| ==> !CheckPointIntended(s, FacePolyline(m, s, player, faces, pos, scale, i + n)[0]))
      && (forall f | i <= f < |faces| && !CheckPointIntended(s, FacePolyline(m, s, player, faces, pos, scale, f)[0]) :: n <= f - i)
    decreases |faces| - i
  {
    if i < |faces| && CheckPointIntended(s, FacePolyline(m, s, player, faces, pos, scale, i)[0]) {
      DrawingStopsAtFirstFailure(m, s, player, faces, pos, scale, i + 1);
    }
  }

  /**
    On the first vertex of any face, check_point as written and as intended
    agree (both hold), so a draw loop using the as-written test emits the
    same polylines.
   */
  lemma FirstVertexChecksAgree(m: Libm, s: Screen, player: Player, faces: seq<Face>, pos: Point3D, scale: real, i: nat)
    requires Tana2(m) > 0.0 && i < |faces|
    ensures var first := FacePolyline(m, s, player, faces, pos, scale, i)[0];
      CheckPoint(s, first) && CheckPointIntended(s, first)
  {
    var first := FacePolyline(m, s, player, faces, pos, scale, i)[0];
    CheckPointIntendedIsOverscan(s, first);
  }

  /**
    The draw loop with check_point as written emits exactly what the loop
    with the corrected test emits, for every face table.
   */
  lemma {:induction false} AsWrittenDrawsTheSame(m: Libm, s: Screen, player: Player, faces: seq<Face>, pos: Point3D, scale: real, i: nat)
    requires Tana2(m) > 0.0 && i <= |faces|
    ensures FacesFromAsWritten(m, s, player, faces, pos, scale, i) == FacesFrom(m, s, player, faces, pos, scale, i)
    decreases |faces| - i
  {
    if i < |faces| {
      FirstVertexChecksAgree(m, s, player, faces, pos, scale, i);
      AsWrittenDrawsTheSame(m, s, player, faces, pos, scale, i + 1);
    }
  }

  /** Since every projected point is clamped into the overscan rectangle, no face ever fails the check. */
  lemma {:induction false} AllFacesFromDrawn(m: Libm, s: Screen, player: Player, faces: seq<Face>, pos: Point3D, scale: real, i: nat)
    requires Tana2(m) > 0.0 && i <= |faces|
    ensures |FacesFrom(m, s, player, faces, pos, scale, i)| == |faces| - i
    decreases |faces| - i
  {
    if i < |faces| {
      var first := FacePolyline(m, s, player, faces, pos, scale, i)[0];
      CheckPointIntendedIsOverscan(s, first);
      AllFacesFromDrawn(m, s, player, faces, pos, scale, i + 1);
    }
  }

  /** Cube::draw always emits exactly four polylines, faces 0 to 3 in order. */
  lemma CubeDrawsFourFaces(m: Libm, s: Screen, player: Player, pos: Point3D, scale: real)
    requires Tana2(m) > 0.0
    ensures |CubeOutline(m, s, player, pos, scale)| == 4
    ensures forall k | 0 <= k < 4 ::
      CubeOutline(m, s, player, pos, scale)[k] == FacePolyline(m, s, player, CubeFaces, pos, scale, k)
  {
    AllFacesFromDrawn(m, s, player, CubeFaces, pos, scale, 0);
    FacesFromInOrder(m, s, player, CubeFaces, pos, scale, 0);
  }

  /** One line segment handed to SDL_RenderDrawLineF. */
  datatype Segment = Segment(from: Point2D, to: Point2D)

  /** A segment's endpoints relative to an anchor point, in pixels. */
  function Offset(seg: Segment, anchor: Point2D): Segment
  {
    Segment(Point2D(seg.from.x - anchor.x, seg.from.y - anchor.y),
            Point2D(seg.to.x - anchor.x, seg.to.y - anchor.y))
  }

  /** Indices of the three shafts in Axes::draw's output (x, y, z). */
  predicate IsShaft(k: nat)
  {
    k == 0 || k == 3 || k == 7
  }

  /** The shaft whose tip the glyph segment k is drawn at. */
  function ShaftOf(k: nat): nat
  {
    if k < 3 then 0 else if k < 7 then 3 else 7
  }

  /**
    The glyph segment k of Axes::draw relative to the tip it is drawn at, in
    pixels: an X (segments 1-2), a Y (4-6) and a Z (8-10).
   */
  function GlyphOffset(k: nat): (g: Segment)
    requires k < 11 && !IsShaft(k)
    ensures -10.0 <= g.from.x <= 25.0 && -20.0 <= g.from.y <= 20.0
    ensures -10.0 <= g.to.x <= 25.0 && -20.0 <= g.to.y <= 20.0
  {
    if k == 1 then Segment(Point2D(-10.0, -20.0), Point2D(10.0, 0.0))
    else if k == 2 then Segment(Point2D(-10.0, 0.0), Point2D(10.0, -20.0))
    else if k == 4 then Segment(Point2D(15.0, 0.0), Point2D(15.0, -10.0))
    else if k == 5 then Segment(Point2D(15.0, -10.0), Point2D(5.0, -20.0))
    else if k == 6 then Segment(Point2D(15.0, -10.0), Point2D(25.0, -20.0))
    else if k == 8 then Segment(Point2D(-10.0, -5.0), Point2D(10.0, -5.0))
    else if k == 9 then Segment(Point2D(10.0, -5.0), Point2D(-10.0, 20.0))
    else Segment(Point2D(-10.0, 20.0), Point2D(10.0, 20.0))
  }

  /** The axes indicator: three rays of length `length` from `pos`, never moved. */
  datatype Axes = Axes(pos: Point3D, length: real) {

    /**
      Axes::draw: one shaft from the projected anchor to each projected tip,
      then a glyph of 2, 3 and 3 short segments at the x, y and z tips.
     */
    function Draw(m: Libm, s: Screen, player: Player): (segments: seq<Segment>)
      reads player
      requires Tana2(m) > 0.0
      ensures |segments| == 11
      ensures forall k | 0 <= k < 11 && IsShaft(k) ::
        segments[k].from == GetOnscreenPoint(m, s, pos, player) && InOverscan(s, segments[k].to)
      ensures segments[0].to == GetOnscreenPoint(m, s, Add(pos, Point3D(length, 0.0, 0.0)), player)
      ensures segments[3].to == GetOnscreenPoint(m, s, Add(pos, Point3D(0.0, length, 0.0)), player)
      ensures segments[7].to == GetOnscreenPoint(m, s, Add(pos, Point3D(0.0, 0.0, length)), player)
      ensures forall k | 0 <= k < 11 && !IsShaft(k) ::
        Offset(segments[k], segments[ShaftOf(k)].to) == GlyphOffset(k)
    {
      var origin := GetOnscreenPoint(m, s, pos, player);
      var x := GetOnscreenPoint(m, s, Add(pos, Point3D(1.0 * length, 0.0, 0.0)), player);
      var y := GetOnscreenPoint(m, s, Add(pos, Point3D(0.0, 1.0 * length, 0.0)), player);
      var z := GetOnscreenPoint(m, s, Add(pos, Point3D(0.0, 0.0, 1.0 * length)), player);
      [
        // x axis
        Segment(origin, x),
        Segment(Point2D(x.x - 10.0, x.y - 20.0), Point2D(x.x + 10.0, x.y)),
        Segment(Point2D(x.x - 10.0, x.y), Point2D(x.x + 10.0, x.y - 20.0)),
        // y axis
        Segment(origin, y),
        Segment(Point2D(y.x + 15.0, y.y), Point2D(y.x + 15.0, y.y - 10.0)),
        Segment(Point2D(y.x + 15.0, y.y - 10.0), Point2D(y.x + 5.0, y.y - 20.0)),
        Segment(Point2D(y.x + 15.0, y.y - 10.0), Point2D(y.x + 25.0, y.y - 20.0)),
        // z axis
        Segment(origin, z),
        Segment(Point2D(z.x - 10.0, z.y - 5.0), Point2D(z.x + 10.0, z.y - 5.0)),
        Segment(Point2D(z.x + 10.0, z.y - 5.0), Point2D(z.x - 10.0, z.y + 20.0)),
        Segment(Point2D(z.x - 10.0, z.y + 20.0), Point2D(z.x + 10.0, z.y + 20.0))
      ]
    }
  }

  /**
    The glyphs have a fixed size in pixels: relative to its tip, every glyph
    segment is the same whatever the anchor, the length, the camera and the
    window, however far away the axes are.
   */
  lemma GlyphsHaveFixedPixelSize(m: Libm, s1: Screen, s2: Screen, a1: Axes, a2: Axes, p1: Player, p2: Player)
    requires Tana2(m) > 0.0
    ensures forall k | 0 <= k < 11 && !IsShaft(k) ::
      Offset(a1.Draw(m, s1, p1)[k], a1.Draw(m, s1, p1)[ShaftOf(k)].to)
      == Offset(a2.Draw(m, s2, p2)[k], a2.Draw(m, s2, p2)[ShaftOf(k)].to)
  {
  }
}
