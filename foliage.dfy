/**
 * `Foliage`: instanced grass quads scattered at random over a 9 x 9 patch,
 * swaying with a wind angle that oscillates between about -10 and 10 degrees.
 */
module FoliageModel {
  import opened Vertices

  /** `Random.Next(Maximum)` draws from [0, Maximum). */
  const Maximum: int := 32767

  datatype FoliageType = FoliageType(x: real, z: real, r: real, g: real, b: real)

  /** A 4 x 4 matrix in row-major order. */
  type Matrix = seq<real>

  const Identity: Matrix := [1.0, 0.0, 0.0, 0.0,
                             0.0, 1.0, 0.0, 0.0,
                             0.0, 0.0, 1.0, 0.0,
                             0.0, 0.0, 0.0, 1.0]

  datatype InstanceType = InstanceType(matrix: Matrix, colour: (real, real, real))

  /** The quad every instance draws: two triangles over the unit square in the XY plane. */
  const Quad: seq<PositionTextureVertex> := [
    PositionTextureVertex(0.0, 0.0, 0.0, 0.0, 1.0),
    PositionTextureVertex(0.0, 1.0, 0.0, 0.0, 0.0),
    PositionTextureVertex(1.0, 0.0, 0.0, 1.0, 1.0),
    PositionTextureVertex(1.0, 0.0, 0.0, 1.0, 1.0),
    PositionTextureVertex(0.0, 1.0, 0.0, 0.0, 0.0),
    PositionTextureVertex(1.0, 1.0, 0.0, 1.0, 0.0)]

  /** One grass tuft from its four random draws (x, z, red, green); blue keeps its default 0. */
  function Planted(dx: int, dz: int, dr: int, dg: int): (f: FoliageType)
    requires 0 <= dx < Maximum && 0 <= dz < Maximum && 0 <= dr < Maximum && 0 <= dg < Maximum
    ensures -4.5 <= f.x < 4.5 && -4.5 <= f.z < 4.5
    ensures 1.0 <= f.r < 2.0 && 0.5 <= f.g < 1.5 && f.b == 0.0
  {
    var m := Maximum as real;
    FoliageType(dx as real / m * 9.0 - 4.5, dz as real / m * 9.0 - 4.5,
                dr as real / m + 1.0, dg as real / m + 0.5, 0.0)
  }

  /** True when every draw is one `Random.Next(Maximum)` could return. */
  predicate ValidDraws(draws: seq<int>)
  {
    forall k :: 0 <= k < |draws| ==> 0 <= draws[k] < Maximum
  }

  /** The tuft at slot `i`, made from draws 4i .. 4i+3. */
  function PlantedAt(draws: seq<int>, i: nat): FoliageType
    requires ValidDraws(draws) && 4 * i + 3 < |draws|
  {
    Planted(draws[4 * i], draws[4 * i + 1], draws[4 * i + 2], draws[4 * i + 3])
  }

  /** The wind invariant: the angle stays within one 0.1 step of the turning point of its direction. */
  predicate WindInvariant(rotation: real, direction: int)
  {
    && (direction == 1 || direction == 2)
    && (direction == 1 ==> -10.1 <= rotation <= 10.0)
    && (direction == 2 ==> -10.0 <= rotation <= 10.1)
  }

  /** One frame of the wind oscillator: direction 1 swings up, any other value swings down. */
  function WindStep(rotation: real, direction: int): (next: (real, int))
    ensures WindInvariant(rotation, direction) ==> WindInvariant(next.0, next.1)
    ensures direction == 1 ==> next.0 == rotation + 0.1 && (next.1 == 2 <==> next.0 > 10.0)
    ensures direction != 1 ==> next.0 == rotation - 0.1 && (next.1 == 1 <==> next.0 < -10.0)
  {
    if direction == 1 then
      var r := rotation + 0.1;
      (r, if r > 10.0 then 2 else direction)
    else
      var r := rotation - 0.1;
      (r, if r < -10.0 then 1 else direction)
  }

  /** The wind state after `frames` frames from the given state. */
  function WindAfter(rotation: real, direction: int, frames: nat): (real, int)
    decreases frames
  {
    if frames == 0 then (rotation, direction)
    else
      var next := WindStep(rotation, direction);
      WindAfter(next.0, next.1, frames - 1)
  }

  /** From the state `Initialise` sets, the direction is always 1 or 2 and the angle stays in [-10.1, 10.1]. */
  lemma {:induction false} WindStaysBounded(rotation: real, direction: int, frames: nat)
    requires WindInvariant(rotation, direction)
    ensures WindInvariant(WindAfter(rotation, direction, frames).0, WindAfter(rotation, direction, frames).1)
    ensures -10.1 <= WindAfter(rotation, direction, frames).0 <= 10.1
    decreases frames
  {
    if frames > 0 {
      var next := WindStep(rotation, direction);
      WindStaysBounded(next.0, next.1, frames - 1);
    }
  }

  lemma InitialWindIsValid()
    ensures WindInvariant(0.9, 1)
  {
  }

  class Foliage {
    var foliageCount: int
    var vertexCount: int
    var instanceCount: int
    var foliageArray: array<FoliageType>
    var instances: array<InstanceType>
    var vertexData: seq<PositionTextureVertex>
    var windRotation: real
    var windDirection: int

    constructor ()
      ensures foliageCount == 0 && windRotation == 0.0 && windDirection == 0
    {
      foliageCount, vertexCount, instanceCount := 0, 0, 0;
      foliageArray := new FoliageType[0];
      instances := new InstanceType[0];
      vertexData := [];
      windRotation, windDirection := 0.0, 0;
    }

    /**
     * Runs the three set-up steps and ANDs their results, then starts the wind.
     * `draws` are the values `Random.Next` returns, four per tuft; `textureLoaded`
     * is the texture loader's result.
     */
    method Initialise(count: int, draws: seq<int>, textureLoaded: bool) returns (result: bool)
      requires count >= 0 && |draws| == 4 * count && ValidDraws(draws)
      modifies this
      ensures foliageCount == count && instanceCount == count && vertexCount == 6
      ensures foliageArray.Length == count && instances.Length == count
      ensures forall i :: 0 <= i < count ==> foliageArray[i] == PlantedAt(draws, i)
      ensures forall i :: 0 <= i < count ==>
        instances[i] == InstanceType(Identity, (foliageArray[i].r, foliageArray[i].g, foliageArray[i].b))
      ensures windRotation == 0.9 && windDirection == 1 && WindInvariant(windRotation, windDirection)
      ensures result == textureLoaded
    {
      foliageCount := count;
      GeneratePositions(draws);
      result := InitialiseBuffers();
      result := result && textureLoaded;
      windRotation := 0.9;
      windDirection := 1;
    }

    /** Fills a fresh `FoliageArray` with one tuft per slot, consuming four draws per tuft. */
    method GeneratePositions(draws: seq<int>)
      requires foliageCount >= 0 && |draws| == 4 * foliageCount && ValidDraws(draws)
      modifies this
      ensures foliageCount == old(foliageCount) && instances == old(instances)
      ensures fresh(foliageArray) && foliageArray.Length == foliageCount
      ensures forall i :: 0 <= i < foliageCount ==> foliageArray[i] == PlantedAt(draws, i)
      ensures windRotation == old(windRotation) && windDirection == old(windDirection)
    {
      var tufts := new FoliageType[foliageCount];
      for i := 0 to foliageCount
        modifies tufts
        invariant forall k :: 0 <= k < i ==> tufts[k] == PlantedAt(draws, k)
      {
        tufts[i] := PlantedAt(draws, i);
      }
      foliageArray := tufts;
    }

    /** The six-vertex quad, then one instance per tuft with the identity matrix and the tuft's colour. */
    method InitialiseBuffers() returns (ok: bool)
      requires foliageArray.Length == foliageCount
      modifies this
      ensures ok
      ensures foliageArray == old(foliageArray) && foliageCount == old(foliageCount)
      ensures vertexCount == 6 && vertexData == Quad && instanceCount == foliageCount
      ensures fresh(instances) && instances.Length == instanceCount
      ensures forall i :: 0 <= i < instanceCount ==>
        instances[i] == InstanceType(Identity, (foliageArray[i].r, foliageArray[i].g, foliageArray[i].b))
    {
      vertexCount := 6;
      vertexData := Quad;
      instanceCount := foliageCount;
      var created := new InstanceType[instanceCount];
      for i := 0 to instanceCount
        modifies created
        invariant forall k :: 0 <= k < i ==>
          created[k] == InstanceType(Identity, (foliageArray[k].r, foliageArray[k].g, foliageArray[k].b))
      {
        created[i] := InstanceType(Identity, (foliageArray[i].r, foliageArray[i].g, foliageArray[i].b));
      }
      instances := created;
      ok := true;
    }

    /** The wind part of `Frame`. */
    method Frame()
      modifies this
      ensures (windRotation, windDirection) == WindStep(old(windRotation), old(windDirection))
      ensures WindInvariant(old(windRotation), old(windDirection)) ==> WindInvariant(windRotation, windDirection)
    {
      if windDirection == 1 {
        windRotation := windRotation + 0.1;
        if windRotation > 10.0 {
          windDirection := 2;
        }
      } else {
        windRotation := windRotation - 0.1;
        if windRotation < -10.0 {
          windDirection := 1;
        }
      }
    }
  }
}
