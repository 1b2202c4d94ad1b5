# A verified model of the ddd wireframe renderer

ddd is a small SDL2 program, a single file `main.cpp`, that draws a wireframe
cube and a set of labelled axes. A first-person camera (the `Player`) moves
with the keyboard and turns with the mouse. This project models the program's
geometry in Dafny:

- the `Point3D` operators;
- the camera transform: `rotate_y`, `rotate_y_around_point`, both `project`
  overloads and `project_with_camera`;
- the mapping to pixels: `place_projected_point` and `get_onscreen_point`;
- the `Player` with its movement methods and the mouse-motion update of its
  two view angles;
- the `Cube` with its face table, `draw`, `check_point` and `move`;
- `Axes::draw`.

Coordinates are reals. `sin`, `cos` and `tan` come in as a parameter
(`MathLib.Libm`), so nothing depends on their values. Where a property needs
a fact of trigonometry, it is a hypothesis of the lemma about the angle in
question (`Pythagorean`, `Parity`, `sin(0) = 0`). Every projection requires
only `tana2 = tan(FOV / 2) > 0`. The window size is the `Screen` value that
the source keeps in the globals `screen_width` and `screen_height`.

Drawing returns what would be handed to the renderer instead of calling
SDL:

- `Cube.Draw` returns the closed polylines, each of five points.
- `Axes.Draw` returns the eleven line segments.

Modules, in dependency order:

- `MathLib` (mathlib.dfy): `M_PI`, the libm parameter and `std::clamp`.
- `Geometry` (geometry.dfy): `Point3D`, `Point2D` and the operators.
- `Camera` (camera.dfy): the `Player` class and its steps.
- `Projection` (projection.dfy): rotation and projection.
- `ScreenMapping` (screen.dfy): pixel placement and `check_point`.
- `Shapes` (shapes.dfy): the face table, the `Cube` class and `Axes`.

The `Cube::draw` loop is written as two methods that mirror its two nested
loops:

- `Cube.ProjectFace` is the inner loop. It fills a five-point array.
- `Cube.DrawFaces` is the outer loop. It runs over a face table and returns
  early when a face fails the check.

`Cube.Draw` calls `DrawFaces` on the constant table. All three are proved
equal to the specification functions `FaceVertices`, `FacesFrom` and
`CubeOutline`. The lemmas about drawing are stated over those functions.

## Model

| member | source | states |
|---|---|---|
| MathLib.Clamp | main.cpp:176-177 | std::clamp: the result lies in [lo, hi]; it is v when v is in range, lo below the range and hi above it |
| Geometry.AddCommutes | main.cpp:143-145 | operator+ is commutative |
| Geometry.AddAssociates | main.cpp:143-145 | operator+ is associative |
| Geometry.SubUndoesAdd | main.cpp:143-148 | operator- undoes operator+, and operator+ undoes operator- |
| Geometry.SubIsZeroIffEqual | main.cpp:146-148 | operator- gives the zero vector exactly when its operands are equal |
| Geometry.SubSelfIsZero | main.cpp:143-148 | p - p is the zero vector, and the zero vector is neutral for + |
| Geometry.ScaleDistributes | main.cpp:139-145 | operator* distributes over +; scaling by 1 is the identity and scaling by 0 gives the origin |
| Camera.Pitch | main.cpp:305 | the new pitch is old + yrel/400, clamped: it is always in [-pi/2, pi/2], saturating at either end |
| Camera.Player.constructor | main.cpp:102-103 | the player starts at (x, y, z) with both view angles 0 |
| Camera.Player.MoveForward | main.cpp:105-108 | the position moves by (sin(yaw) d, 0, cos(yaw) d); y and both angles are unchanged |
| Camera.Player.MoveBackward | main.cpp:110-112 | the same effect as moving forward by -d |
| Camera.Player.MoveLeft | main.cpp:114-117 | the position moves by (-cos(yaw) d, 0, sin(yaw) d); y and both angles are unchanged |
| Camera.Player.MoveRight | main.cpp:118-120 | the same effect as moving left by -d |
| Camera.Player.MoveX | main.cpp:122-124 | only x changes, by dx |
| Camera.Player.MoveY | main.cpp:126-128 | only y changes, by dy |
| Camera.Player.MoveZ | main.cpp:130-132 | only z changes, by dz |
| Camera.Player.OnMouseMotion | main.cpp:305-306 | the pitch stays in [-pi/2, pi/2] and follows Pitch; the yaw grows by exactly xrel/400; the position is unchanged |
| Camera.OppositeMovesCancel | main.cpp:105-120 | a backward step of d undoes a forward step of d, and a right step undoes a left step |
| Camera.StepsAreOrthogonal | main.cpp:105-117 | the forward and left steps are perpendicular; when sin^2 + cos^2 = 1 both have length abs(d) |
| Camera.StepsAtZeroYaw | main.cpp:105-117 | at yaw 0 forward is +z and left is -x |
| Camera.PitchSaturates | main.cpp:305 | a pitch at +pi/2 stays there under any further downward motion; a large motion from 0 saturates |
| Projection.Tana2 | main.cpp:96-98 | tana2 = tan(FOV / 2) with FOV = 120 degrees in radians is the tangent of pi/3 |
| Projection.Depth | main.cpp:151 | the depth a projection divides by is at least 1; it is z when z >= 1 and 1 otherwise |
| Projection.RotateY | main.cpp:155-157 | rotation about the vertical axis leaves y unchanged |
| Projection.RotateYAroundPoint | main.cpp:159-163 | rotation about a pivot leaves y unchanged |
| Projection.ProjectDivides | main.cpp:150-153 | project(Point3D): the projected point times (max(z, 1) tana2) gives back x and y |
| Projection.ProjectKeepsSides | main.cpp:150-169 | both project overloads keep sides: the projected x (y) is negative, zero or positive exactly as the point's x (y) is below, at or above the player's (the origin's for the first overload) |
| Projection.DepthFloor | main.cpp:150-169 | the divisor is never below tana2; for both overloads a point nearer than depth 1 projects as if it were at depth 1 |
| Projection.ProjectOverloadsAgree | main.cpp:165-169 | project(Point3D, Player&): project(p, player) is project(p - player.m_pos) |
| Projection.CameraTransform | main.cpp:171-173 | project_with_camera for every yaw: the point relative to the player, turned by minus the yaw, then divided by perspective |
| Projection.SameRaySamePoint | main.cpp:150-153 | points on one ray from the camera at depth >= 1 project to the same point |
| Projection.ProjectAtDepth | main.cpp:150-153 | at depth >= 1 the divisor is z tana2 with no floor |
| Projection.RotateByZero | main.cpp:155-157 | turning by 0 leaves a point in place |
| Projection.RotateKeepsPlanarDistance | main.cpp:155-157 | rotation keeps x^2 + z^2 when sin^2 + cos^2 = 1 |
| Projection.RotateInverse | main.cpp:155-157 | rotating by -a undoes rotating by a |
| Projection.PivotRotation | main.cpp:159-163 | the pivot is fixed, and rotating back about the same pivot restores any point |
| Projection.CameraPositionProjectsToCentre | main.cpp:171-173 | project_with_camera maps the player's own position to (0, 0) |
| Projection.ZeroYawIsPerspectiveDivide | main.cpp:165-173 | at yaw 0 the camera transform is the plain perspective divide of the player-relative point |
| Projection.ForwardIsStraightAhead | main.cpp:171-173 | the point a forward move leads to projects to (0, 0) at any yaw |
| ScreenMapping.PlaceProjectedPoint | main.cpp:175-178 | the pixel lies in the overscan rectangle [-500, w+500] x [-500, h+500]; inside it, it is (x w + w/2, y w + h/2), so y is scaled by the width; outside it, each coordinate saturates at the nearest edge (-500 below, w+500 or h+500 above) |
| ScreenMapping.GetOnscreenPoint | main.cpp:180-182 | every world point maps into the overscan rectangle |
| ScreenMapping.CheckPoint | main.cpp:224-226 | check_point as written accepts a point exactly when its x is in [-500, w+500], whatever its y |
| ScreenMapping.CheckPointAcceptsOffscreenY | main.cpp:225 | (0, -1000) on an 800x600 window passes check_point as written but not the intended test |
| ScreenMapping.CheckPointIntendedIsOverscan | main.cpp:224-226 | the intended check accepts exactly the overscan rectangle and implies the as-written one |
| ScreenMapping.PlacedPointsPassCheck | main.cpp:175-178 | every placed pixel passes both the as-written and the intended check |
| ScreenMapping.CameraPositionMapsToCentre | main.cpp:180-182 | get_onscreen_point maps the player's position to the window centre (w/2, h/2) |
| ScreenMapping.ForwardPointMapsToCentre | main.cpp:180-182 | the point a forward move leads to lands on the window centre |
| Shapes.CubeFacesAreQuads | main.cpp:62-93 | the table holds four quads; every vertex is a corner of the unit cube and consecutive vertices, cyclically, share an edge |
| Shapes.FaceVertices | main.cpp:197-199 | a face yields one on-screen vertex per remaining corner, all inside the overscan rectangle |
| Shapes.FaceVerticesAt | main.cpp:198 | entry k of a face's vertices is get_onscreen_point of cube_faces[i][k] * m_scale + m_pos |
| Shapes.FaceVerticesExactly | main.cpp:197-199 | four points that are the face's projected corners, in order, are exactly its FaceVertices |
| Shapes.Cube.constructor | main.cpp:185 | the cube starts at pos with the given scale |
| Shapes.Cube.Move | main.cpp:210-214 | the position moves by (x, y, z) and the scale is unchanged |
| Shapes.FacesFromStep | main.cpp:201-206 | one step of the face loop: a failing face ends the output, a passing one appends its polyline |
| Shapes.ClosedBuffer | main.cpp:204 | a five-point buffer holding a quad followed by its first point is the quad's closed polyline |
| Shapes.Cube.ProjectFace | main.cpp:196-199 | a fresh five-point buffer whose first four points are the face's projected vertices |
| Shapes.Cube.DrawFaces | main.cpp:195-207 | the loop with its early return emits exactly FacesFrom(0) |
| Shapes.Cube.Draw | main.cpp:193-208 | Cube::draw emits exactly CubeOutline |
| Shapes.FacesFromInOrder | main.cpp:195-207 | at most one polyline per face, and polyline k is that of face k, in table order |
| Shapes.OutlinePolylinesAreClosed | main.cpp:196-206 | every emitted polyline has five points, the last equal to the first, and the first four are the projected corners of its face |
| Shapes.DrawingStopsAtFirstFailure | main.cpp:201-203 | drawing stops exactly at the first face whose first point fails the overscan test; every earlier face passed and no face from a failing one on is emitted |
| Shapes.AsWrittenDrawsTheSame | main.cpp:195-207 | the face loop with check_point exactly as written emits the same polylines as with the corrected test, for every face table |
| Shapes.FirstVertexChecksAgree | main.cpp:224-226 | the first point of every face passes check_point both as written and as intended, so the two versions decide every face alike |
| Shapes.AllFacesFromDrawn | main.cpp:201-203 | because of the clamp no face fails the check, so every remaining face is emitted |
| Shapes.CubeDrawsFourFaces | main.cpp:193-207 | Cube::draw always emits exactly four polylines, faces 0 to 3 in order |
| Shapes.GlyphOffset | main.cpp:244-256 | the glyph offsets from their tips, every one within [-10, 25] x [-20, 20] px |
| Shapes.Axes.Draw | main.cpp:234-259 | eleven segments in source order; the three shafts run from the projected anchor to the projected tips at pos + length along x, y and z; each glyph segment is exactly its GlyphOffset from its tip |
| Shapes.GlyphsHaveFixedPixelSize | main.cpp:243-256 | relative to its tip, each glyph segment is the same for every anchor, length, camera and window |

## Left out

- SDL initialisation, the window and renderer globals, and the `scc`/`scp` fatal-exit macros (main.cpp:7-42). These are foreign library calls and process exit.
- The event loop, the keyboard-state polling, the 30 Hz `SDL_GetTicks` throttle, the window-resize handler and the clear/present calls (main.cpp:267-358). These are I/O and wall-clock timing. The mouse-motion arithmetic is modelled as `Player.OnMouseMotion`. The window size is the `Screen` parameter.
- The rasterisation done by `SDL_RenderDrawLinesF` and `SDL_RenderDrawLineF`. Drawing returns the polylines and segments it would issue.
- The `operator<<` formatting (main.cpp:53-60), which is stream I/O.
- IEEE single and double precision: rounding, NaN, infinity, and the `float` storage of the `double` pitch at main.cpp:305. Arithmetic is over reals.
- The values of `sin`, `cos` and `tan`. They are the `Libm` parameter, and each lemma that needs a trigonometric identity takes it as a hypothesis at the angle it uses.
- The `#if 0` multi-cube code and the uninitialised `quit` flag in `main`, which is dead code and undefined behaviour respectively.
- `Cube::getpos` (main.cpp:216-218), which only reads the `pos` field.
- Negative window sizes. `Screen` holds naturals, since SDL never reports a negative size. Over all integers, the as-written y-test in `check_point` holds whenever h >= -499.
- `Project`, `ProjectForPlayer`, `ProjectWithCamera` and the `Point3D` operators carry no contracts of their own: each cube vertex goes through them, and nonlinear contracts there would be instantiated at every vertex of the `Cube.ProjectFace` loop and push it past the verifier's resource limit. Lemmas state the same facts instead: `ProjectDivides`, `ProjectKeepsSides`, `ProjectOverloadsAgree`, `DepthFloor`, `CameraTransform` and the `Geometry` lemmas.
- Shapes.Cube.Draw: the face loop is split into `ProjectFace` and `DrawFaces`, which take the face table as a parameter. The pixel array is fresh per face, as `Point2D pts[5]` is in the source. The polylines are returned as sequences instead of passed to SDL.

## Findings

| source | as written | input that shows it | evidently intended | confidence | as-written member | corrected member |
|---|---|---|---|---|---|---|
| main.cpp:225 | `-500 <= p.y <= screen_height + 500` parses as `(-500 <= p.y) <= screen_height + 500`: a 0 or 1 compared with the height, true for every y once the height is at least -499 | the point (0, -1000) on an 800x600 window passes the check, though it is 1000 px above the window | `-500 <= p.y && p.y <= screen_height + 500`, the overscan rectangle | not executed | ScreenMapping.CheckPoint, shown by ScreenMapping.CheckPointAcceptsOffscreenY | ScreenMapping.CheckPointIntended, proved equal to the overscan rectangle by ScreenMapping.CheckPointIntendedIsOverscan |

The cube's face loop (`FacesFrom`, `Cube.DrawFaces`) uses the corrected
test. This changes nothing the program draws: `place_projected_point`
clamps y into the overscan rectangle, so every point `Cube::draw` tests
passes both versions (`ScreenMapping.PlacedPointsPassCheck`,
`Shapes.FirstVertexChecksAgree`), and the loop written with the as-written
test (`Shapes.FacesFromAsWritten`) emits exactly the same polylines
(`Shapes.AsWrittenDrawsTheSame`).
