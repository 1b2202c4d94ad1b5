/**
  The renderer's two point types and the three operators on Point3D.
  Coordinates are reals: the model does not follow IEEE single precision.
 */
module Geometry {

  /** A point (or a displacement) in world space. */
  datatype Point3D = Point3D(x: real, y: real, z: real)

  /** SDL_FPoint: a normalized projection or a pixel position, depending on the stage. */
  datatype Point2D = Point2D(x: real, y: real)

  const Zero: Point3D := Point3D(0.0, 0.0, 0.0)

  /** operator*(Point3D, float) */
  function Scale(p: Point3D, a: real): Point3D
  {
    Point3D(p.x * a, p.y * a, p.z * a)
  }

  /** operator+(Point3D, Point3D) */
  function Add(p1: Point3D, p2: Point3D): Point3D
  {
    Point3D(p1.x + p2.x, p1.y + p2.y, p1.z + p2.z)
  }

  /** operator-(Point3D, Point3D) */
  function Sub(p1: Point3D, p2: Point3D): Point3D
  {
    Point3D(p1.x - p2.x, p1.y - p2.y, p1.z - p2.z)
  }

  lemma AddCommutes(a: Point3D, b: Point3D)
    ensures Add(a, b) == Add(b, a)
  {
  }

  lemma AddAssociates(a: Point3D, b: Point3D, c: Point3D)
    ensures Add(Add(a, b), c) == Add(a, Add(b, c))
  {
  }

  /** Subtracting what was added gives back the first operand, and the other way round. */
  lemma SubUndoesAdd(a: Point3D, b: Point3D)
    ensures Sub(Add(a, b), b) == a
    ensures Add(Sub(a, b), b) == a
  {
  }

  /** The difference of two points is the zero vector exactly when they coincide. */
  lemma SubIsZeroIffEqual(a: Point3D, b: Point3D)
    ensures Sub(a, b) == Zero <==> a == b
  {
  }

  /** A point minus itself is the zero vector, and adding zero changes nothing. */
  lemma SubSelfIsZero(a: Point3D)
    ensures Sub(a, a) == Zero
    ensures Add(Zero, a) == a && Add(a, Zero) == a
  {
  }

  /** operator* distributes over operator+; scaling by 1 changes nothing and by 0 gives the origin. */
  lemma ScaleDistributes(a: Point3D, b: Point3D, k: real)
    ensures Scale(Add(a, b), k) == Add(Scale(a, k), Scale(b, k))
    ensures Scale(a, 1.0) == a
    ensures Scale(a, 0.0) == Zero
  {
  }
}
