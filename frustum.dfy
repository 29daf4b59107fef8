/**
 * `Frustrum`: visibility tests against the six planes of the view frustum.
 * A plane (a, b, c, d) classifies a point by the affine signed distance
 * a*x + b*y + c*z + d; each test is the source's for-loop over the six planes
 * with an early `return false`.
 */
module Frustum {

  datatype Vector3 = Vector3(x: real, y: real, z: real)

  datatype Plane = Plane(a: real, b: real, c: real, d: real)

  /** `Plane.DotCoordinate`. */
  function DotCoordinate(plane: Plane, p: Vector3): real
  {
    plane.a * p.x + plane.b * p.y + plane.c * p.z + plane.d
  }

  const NoPlane: Plane := Plane(0.0, 0.0, 0.0, 0.0)

  /** The `_planes` array always holds exactly six planes. */
  type SixPlanes = s: seq<Plane> | |s| == 6
    witness [NoPlane, NoPlane, NoPlane, NoPlane, NoPlane, NoPlane]

  /**
   * Corner `k` (0 <= k < 8) of the box centred on `c` with half sizes `h`, in
   * the order the source tests them: bit 0 of `k` picks +x, bit 1 picks +y,
   * bit 2 picks +z.
   */
  function Corner(c: Vector3, h: Vector3, k: int): Vector3
  {
    Vector3(if k % 2 == 1 then c.x + h.x else c.x - h.x,
            if (k / 2) % 2 == 1 then c.y + h.y else c.y - h.y,
            if (k / 4) % 2 == 1 then c.z + h.z else c.z - h.z)
  }

  /** The eight `continue` tests the cube and rectangle checks run against one plane. */
  function SomeCornerInside(plane: Plane, c: Vector3, h: Vector3): (inside: bool)
    ensures inside <==> exists k :: 0 <= k < 8 && DotCoordinate(plane, Corner(c, h, k)) >= 0.0
  {
    var inside :=
      || DotCoordinate(plane, Vector3(c.x - h.x, c.y - h.y, c.z - h.z)) >= 0.0
      || DotCoordinate(plane, Vector3(c.x + h.x, c.y - h.y, c.z - h.z)) >= 0.0
      || DotCoordinate(plane, Vector3(c.x - h.x, c.y + h.y, c.z - h.z)) >= 0.0
      || DotCoordinate(plane, Vector3(c.x + h.x, c.y + h.y, c.z - h.z)) >= 0.0
      || DotCoordinate(plane, Vector3(c.x - h.x, c.y - h.y, c.z + h.z)) >= 0.0
      || DotCoordinate(plane, Vector3(c.x + h.x, c.y - h.y, c.z + h.z)) >= 0.0
      || DotCoordinate(plane, Vector3(c.x - h.x, c.y + h.y, c.z + h.z)) >= 0.0
      || DotCoordinate(plane, Vector3(c.x + h.x, c.y + h.y, c.z + h.z)) >= 0.0;
    assert Corner(c, h, 0) == Vector3(c.x - h.x, c.y - h.y, c.z - h.z);
    assert Corner(c, h, 1) == Vector3(c.x + h.x, c.y - h.y, c.z - h.z);
    assert Corner(c, h, 2) == Vector3(c.x - h.x, c.y + h.y, c.z - h.z);
    assert Corner(c, h, 3) == Vector3(c.x + h.x, c.y + h.y, c.z - h.z);
    assert Corner(c, h, 4) == Vector3(c.x - h.x, c.y - h.y, c.z + h.z);
    assert Corner(c, h, 5) == Vector3(c.x + h.x, c.y - h.y, c.z + h.z);
    assert Corner(c, h, 6) == Vector3(c.x - h.x, c.y + h.y, c.z + h.z);
    assert Corner(c, h, 7) == Vector3(c.x + h.x, c.y + h.y, c.z + h.z);
    inside
  }

  datatype Frustrum = Frustrum(planes: SixPlanes) {

    /** `CheckPoint` from plane `i` on: false at the first plane the point lies behind. */
    function CheckPointFrom(p: Vector3, i: nat): (inside: bool)
      requires i <= 6
      ensures inside <==> forall k :: i <= k < 6 ==> DotCoordinate(planes[k], p) >= 0.0
      decreases 6 - i
    {
      if i == 6 then true
      else if DotCoordinate(planes[i], p) < 0.0 then false
      else CheckPointFrom(p, i + 1)
    }

    /** `CheckPoint`: the point is visible iff it lies on the inner side of all six planes. */
    function CheckPoint(p: Vector3): (inside: bool)
      ensures inside <==> forall k :: 0 <= k < 6 ==> DotCoordinate(planes[k], p) >= 0.0
    {
      CheckPointFrom(p, 0)
    }

    /** `CheckSphere` from plane `i` on: false at the first plane the centre lies more than `radius` behind. */
    function CheckSphereFrom(center: Vector3, radius: real, i: nat): (inside: bool)
      requires i <= 6
      ensures inside <==> forall k :: i <= k < 6 ==> DotCoordinate(planes[k], center) >= -radius
      decreases 6 - i
    {
      if i == 6 then true
      else if DotCoordinate(planes[i], center) < -radius then false
      else CheckSphereFrom(center, radius, i + 1)
    }

    /** `CheckSphere`: visible iff the centre is no more than `radius` behind any plane. */
    function CheckSphere(center: Vector3, radius: real): (inside: bool)
      ensures inside <==> forall k :: 0 <= k < 6 ==> DotCoordinate(planes[k], center) >= -radius
    {
      CheckSphereFrom(center, radius, 0)
    }

    /** `CheckCube` from plane `i` on: false at the first plane all eight corners lie behind. */
    function CheckCubeFrom(center: Vector3, radius: real, i: nat): (inside: bool)
      requires i <= 6
      ensures inside <==> forall k :: i <= k < 6 ==>
        exists n :: 0 <= n < 8 && DotCoordinate(planes[k], Corner(center, Vector3(radius, radius, radius), n)) >= 0.0
      decreases 6 - i
    {
      if i == 6 then true
      else if !SomeCornerInside(planes[i], center, Vector3(radius, radius, radius)) then false
      else CheckCubeFrom(center, radius, i + 1)
    }

    /** `CheckCube`: visible iff no plane has all eight corners of the cube behind it. */
    function CheckCube(center: Vector3, radius: real): (inside: bool)
      ensures inside <==> forall k :: 0 <= k < 6 ==>
        exists n :: 0 <= n < 8 && DotCoordinate(planes[k], Corner(center, Vector3(radius, radius, radius), n)) >= 0.0
    {
      CheckCubeFrom(center, radius, 0)
    }

    /** `CheckRectangle` from plane `i` on, with a half size per axis. */
    function CheckRectangleFrom(center: Vector3, size: Vector3, i: nat): (inside: bool)
      requires i <= 6
      ensures inside <==> forall k :: i <= k < 6 ==>
        exists n :: 0 <= n < 8 && DotCoordinate(planes[k], Corner(center, size, n)) >= 0.0
      decreases 6 - i
    {
      if i == 6 then true
      else if !SomeCornerInside(planes[i], center, size) then false
      else CheckRectangleFrom(center, size, i + 1)
    }

    /** `CheckRectangle`: visible iff no plane has all eight corners of the box behind it. */
    function CheckRectangle(center: Vector3, size: Vector3): (inside: bool)
      ensures inside <==> forall k :: 0 <= k < 6 ==>
        exists n :: 0 <= n < 8 && DotCoordinate(planes[k], Corner(center, size, n)) >= 0.0
    {
      CheckRectangleFrom(center, size, 0)
    }
  }

  /** The cube test is the rectangle test with the same half size on every axis. */
  lemma CubeIsEqualRectangle(f: Frustrum, center: Vector3, radius: real)
    ensures f.CheckCube(center, radius) == f.CheckRectangle(center, Vector3(radius, radius, radius))
  {
  }

  /** A larger sphere around the same centre passes whenever a smaller one does. */
  lemma SphereMonotone(f: Frustrum, center: Vector3, r: real, r': real)
    requires r <= r' && f.CheckSphere(center, r)
    ensures f.CheckSphere(center, r')
  {
    forall k | 0 <= k < 6
      ensures DotCoordinate(f.planes[k], center) >= -r'
    {
      assert DotCoordinate(f.planes[k], center) >= -r;
    }
  }

  /** A visible point makes every sphere of non-negative radius around it visible. */
  lemma PointInsideImpliesSphere(f: Frustrum, center: Vector3, radius: real)
    requires radius >= 0.0 && f.CheckPoint(center)
    ensures f.CheckSphere(center, radius)
  {
    forall k | 0 <= k < 6
      ensures DotCoordinate(f.planes[k], center) >= -radius
    {
      assert DotCoordinate(f.planes[k], center) >= 0.0;
    }
  }

  /**
   * The signed distance is affine, so the two opposite corners c - h and c + h
   * average to the centre's distance; one of them is on the inside of any plane
   * the centre is inside.
   */
  lemma OppositeCornersAverage(plane: Plane, c: Vector3, h: Vector3)
    ensures DotCoordinate(plane, Corner(c, h, 0)) + DotCoordinate(plane, Corner(c, h, 7))
            == 2.0 * DotCoordinate(plane, c)
  {
  }

  /** A visible centre makes every box around it visible, whatever its half sizes. */
  lemma PointInsideImpliesRectangle(f: Frustrum, center: Vector3, size: Vector3)
    requires f.CheckPoint(center)
    ensures f.CheckRectangle(center, size)
  {
    forall k | 0 <= k < 6
      ensures exists n :: 0 <= n < 8 && DotCoordinate(f.planes[k], Corner(center, size, n)) >= 0.0
    {
      OppositeCornersAverage(f.planes[k], center, size);
      assert DotCoordinate(f.planes[k], center) >= 0.0;
      if DotCoordinate(f.planes[k], Corner(center, size, 0)) >= 0.0 {
      } else {
        assert DotCoordinate(f.planes[k], Corner(center, size, 7)) >= 0.0;
      }
    }
  }

  /** A visible centre makes every cube around it visible, whatever its radius. */
  lemma PointInsideImpliesCube(f: Frustrum, center: Vector3, radius: real)
    requires f.CheckPoint(center)
    ensures f.CheckCube(center, radius)
  {
    PointInsideImpliesRectangle(f, center, Vector3(radius, radius, radius));
    CubeIsEqualRectangle(f, center, radius);
  }
}
