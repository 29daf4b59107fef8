/**
 * The `Terrain` object: a height map of W x H samples that is loaded from a
 * bitmap, flattened, given normals and texture coordinates, turned into a
 * triangle list, and edited in place by raising a 3 x 3 patch. Every method
 * is proved against the value-level definitions of `TerrainGrid`.
 *
 * What lies outside the program is a parameter: the bitmap (None when it
 * cannot be opened), whether the texture and the buffers could be created,
 * and `unit`, the division of a vector by its length.
 */
module TerrainModel {
  import opened Vertices
  import opened Wrappers
  import opened RowMajor
  import opened TerrainGrid

  class Terrain {
    var width: int
    var height: int
    var heightMap: seq<Sample>
    /** Face normals computed by `UpdateNormal`, keyed by the face's top-left sample. */
    var cachedNormals: map<(int, int), Vector3>
    var vertexCount: int
    var indexCount: int
    /** The contents handed to the vertex and index buffers. */
    var vertices: seq<PositionTextureNormalVertex>
    var indices: seq<int>
    var textureCreated: bool

    /** An empty terrain or a W x H one with W, H >= 1; the height map holds W * H samples. */
    ghost predicate Valid()
      reads this
    {
      ((width == 0 && height == 0) || (width >= 1 && height >= 1)) &&
      |heightMap| == width * height
    }

    constructor ()
      ensures Valid() && width == 0 && height == 0
      ensures heightMap == [] && cachedNormals == map[]
      ensures vertexCount == 0 && indexCount == 0 && vertices == [] && indices == []
      ensures !textureCreated
    {
      width, height := 0, 0;
      heightMap := [];
      cachedNormals := map[];
      vertexCount, indexCount := 0, 0;
      vertices, indices := [], [];
      textureCreated := false;
    }

    /**
     * Loads the height map, flattens it, computes the normals and the
     * texture coordinates, loads the texture and builds the buffers. Every
     * step runs even after an earlier one failed; the result is the
     * conjunction of the steps' results. A missing bitmap leaves the old
     * height map (and its size) to the later steps.
     */
    method Initialise(bitmap: Option<Bitmap>, textureLoaded: bool, buffersCreated: bool, unit: Vector3 -> Vector3) returns (ok: bool)
      requires Valid()
      modifies this
      ensures Valid()
      ensures bitmap.Some? ==> width == bitmap.value.width && height == bitmap.value.height
      ensures bitmap.None? ==> width == old(width) && height == old(height)
      ensures var loaded := if bitmap.Some? then LoadedMap(bitmap.value) else old(heightMap);
        heightMap == TexturedMap(NormalledMap(NormalisedMap(loaded), width, height, unit), width)
      ensures width >= 1 ==> vertices == MeshRows(heightMap, width, height - 1)
      ensures textureCreated && cachedNormals == old(cachedNormals)
      ensures ok <==> bitmap.Some? && textureLoaded && buffersCreated
    {
      var result := LoadHeightMap(bitmap);
      NormaliseHeightMap();
      var normalsOk := CalculateNormals(unit);
      result := result && normalsOk;
      CalculateTextureCoordinates();
      var textureOk := LoadTexture(textureLoaded);
      result := result && textureOk;
      var buffersOk := InitialiseBuffers(buffersCreated);
      result := result && buffersOk;
      ok := result;
    }

    /**
     * Reads the bitmap row by row into a fresh height map: pixel (i, j)
     * becomes the sample at x = i, z = j with the pixel's red value as its
     * height. Without a bitmap nothing changes.
     */
    method LoadHeightMap(bitmap: Option<Bitmap>) returns (ok: bool)
      requires Valid()
      modifies this
      ensures Valid()
      ensures ok <==> bitmap.Some?
      ensures ok ==> width == bitmap.value.width && height == bitmap.value.height && heightMap == LoadedMap(bitmap.value)
      ensures !ok ==> width == old(width) && height == old(height) && heightMap == old(heightMap)
      ensures cachedNormals == old(cachedNormals) && textureCreated == old(textureCreated)
      ensures vertexCount == old(vertexCount) && indexCount == old(indexCount)
      ensures vertices == old(vertices) && indices == old(indices)
    {
      if bitmap.None? {
        return false;
      }
      var b := bitmap.value;
      var samples := [];
      for j := 0 to b.height
        invariant samples == LoadedRows(b, j)
      {
        ghost var before := samples;
        for i := 0 to b.width
          invariant samples == before + LoadedRow(b, j, i)
        {
          samples := samples + [LoadedSample(b, i, j)];
        }
      }
      assert samples == LoadedMap(b);
      width, height := b.width, b.height;
      heightMap := samples;
      ok := true;
    }

    /** Divides every height by 15; nothing else changes. */
    method NormaliseHeightMap()
      requires Valid()
      modifies this
      ensures Valid()
      ensures heightMap == NormalisedMap(old(heightMap))
      ensures width == old(width) && height == old(height) && cachedNormals == old(cachedNormals)
      ensures textureCreated == old(textureCreated)
      ensures vertexCount == old(vertexCount) && indexCount == old(indexCount)
      ensures vertices == old(vertices) && indices == old(indices)
    {
      var samples := heightMap;
      ghost var original := samples;
      for i := 0 to |samples|
        invariant |samples| == |original|
        invariant forall k :: 0 <= k < i ==> samples[k] == Flattened(original[k])
        invariant forall k :: i <= k < |samples| ==> samples[k] == original[k]
      {
        samples := samples[i := Flattened(samples[i])];
      }
      heightMap := samples;
    }

    /**
     * Walks the samples row by row, writing tu from a counter over all
     * samples and tv from a counter over the rows, each reset after W / 8
     * steps of 8 / W.
     */
    method CalculateTextureCoordinates()
      requires Valid()
      modifies this
      ensures Valid()
      ensures heightMap == TexturedMap(old(heightMap), width)
      ensures width == old(width) && height == old(height) && cachedNormals == old(cachedNormals)
      ensures textureCreated == old(textureCreated)
      ensures vertexCount == old(vertexCount) && indexCount == old(indexCount)
      ensures vertices == old(vertices) && indices == old(indices)
    {
      heightMap := TextureWalk(heightMap, width, height);
    }

    /**
     * Computes the normal of every face of the grid into a fresh array of
     * (H - 1)(W - 1) entries, face (x, z) at slot z (W - 1) + x. An empty
     * terrain gets a one-entry array of zeros.
     */
    method GetNewNormals() returns (normals: array<Vector3>)
      requires Valid()
      ensures fresh(normals)
      ensures width >= 1 ==> normals[..] == FaceRows(heightMap, width, height - 1)
      ensures width == 0 ==> normals[..] == [Zero3]
    {
      var sampleHeight := height - 1;
      var sampleWidth := width - 1;
      normals := new Vector3[sampleHeight * sampleWidth](_ => Zero3);
      if width == 0 {
        return;
      }
      var m, w, h := heightMap, width, height;
      var rowStart := 0;
      for z := 0 to sampleHeight
        invariant rowStart == Index(sampleWidth, 0, z) && rowStart <= normals.Length
        invariant forall q :: 0 <= q < rowStart ==> normals[q] == FaceRows(m, w, sampleHeight)[q]
      {
        RowAfterRow(sampleWidth, sampleHeight, z);
        FillFaceRow(m, w, h, z, rowStart, normals);
        rowStart := rowStart + sampleWidth;
      }
    }

    /**
     * Gives every sample the normalised average of the array's normals of
     * the faces around it, each read from the face's slot.
     */
    method UpdateNormals(normals: array<Vector3>, unit: Vector3 -> Vector3) returns (ok: bool)
      requires Valid()
      requires width >= 1 ==> normals.Length == (width - 1) * (height - 1)
      modifies this
      ensures width == old(width) && height == old(height) && cachedNormals == old(cachedNormals)
      ensures textureCreated == old(textureCreated)
      ensures vertexCount == old(vertexCount) && indexCount == old(indexCount)
      ensures vertices == old(vertices) && indices == old(indices)
      ensures Valid() && ok
      ensures heightMap == ArrayNormalled(old(heightMap), normals[..], width, height, unit)
    {
      if width >= 1 {
        heightMap := NormalsFromArray(heightMap, normals, width, height, unit);
      }
      ok := true;
    }

    /** The face normals into an array, then every vertex normal from it. */
    method CalculateNormals(unit: Vector3 -> Vector3) returns (ok: bool)
      requires Valid()
      modifies this
      ensures width == old(width) && height == old(height) && cachedNormals == old(cachedNormals)
      ensures textureCreated == old(textureCreated)
      ensures vertexCount == old(vertexCount) && indexCount == old(indexCount)
      ensures vertices == old(vertices) && indices == old(indices)
      ensures Valid() && ok
      ensures heightMap == NormalledMap(old(heightMap), width, height, unit)
    {
      var newNormals := GetNewNormals();
      var result := UpdateNormals(newNormals, unit);
      if width >= 1 {
        ArrayNormalsAreVertexNormals(old(heightMap), width, height, unit);
      }
      ok := true;
    }

    /**
     * The normal of face (x, z) from the cache; on a miss it is computed and
     * added. None when computing it reads outside the list (the indexer
     * throws), and then nothing is added.
     */
    method GetCachedNormalForPosition(x: int, z: int) returns (normal: Option<Vector3>)
      modifies this
      ensures width == old(width) && height == old(height) && heightMap == old(heightMap)
      ensures textureCreated == old(textureCreated)
      ensures vertexCount == old(vertexCount) && indexCount == old(indexCount)
      ensures vertices == old(vertices) && indices == old(indices)
      ensures normal == Lookup(old(cachedNormals), heightMap, width, (x, z))
      ensures cachedNormals ==
        if (x, z) in old(cachedNormals) || normal.None? then old(cachedNormals) else old(cachedNormals)[(x, z) := normal.value]
      ensures CacheExtends(old(cachedNormals), cachedNormals, heightMap, width)
    {
      if (x, z) !in cachedNormals {
        var computed := FaceNormal(heightMap, width, x, z);
        if computed.None? {
          return None;
        }
        cachedNormals := cachedNormals[(x, z) := computed.value];
      }
      normal := Some(cachedNormals[(x, z)]);
    }

    /**
     * Replaces the normal of vertex (x, z) by the normalised average of the
     * cached normals of the faces around it, counted from 9. A lookup that
     * throws or an index outside the list stops it: `ok == false`, with the
     * normals cached so far kept and the height map unchanged.
     */
    method UpdateNormal(x: int, z: int, unit: Vector3 -> Vector3) returns (ok: bool)
      modifies this
      ensures width == old(width) && height == old(height)
      ensures textureCreated == old(textureCreated)
      ensures vertexCount == old(vertexCount) && indexCount == old(indexCount)
      ensures vertices == old(vertices) && indices == old(indices)
      ensures CacheExtends(old(cachedNormals), cachedNormals, old(heightMap), width)
      ensures var looked := LookupFaces(old(cachedNormals), old(heightMap), width, TouchingFaces(width, height, x, z));
        ok <==> looked.Some? && 0 <= Index(width, x, z) < |old(heightMap)|
      ensures var looked := LookupFaces(old(cachedNormals), old(heightMap), width, TouchingFaces(width, height, x, z));
        ok ==> heightMap == old(heightMap)[Index(width, x, z) := WithNormal(old(heightMap)[Index(width, x, z)], unit(AverageNormal(looked.value)))]
      ensures !ok ==> heightMap == old(heightMap)
    {
      var found, average := CachedAverage(x, z);
      if !found {
        return false;
      }
      var index := Index(width, x, z);
      ok := ChangeNormal(index, unit(average));
    }

    /**
     * The first part of `UpdateNormal`: the cached normals of the faces around
     * vertex (x, z) summed from zero under the four border guards and divided
     * by 9 plus their number; `found == false` once a lookup throws, after
     * which nothing more is looked up.
     */
    method CachedAverage(x: int, z: int) returns (found: bool, average: Vector3)
      modifies this
      ensures width == old(width) && height == old(height) && heightMap == old(heightMap)
      ensures textureCreated == old(textureCreated)
      ensures vertexCount == old(vertexCount) && indexCount == old(indexCount)
      ensures vertices == old(vertices) && indices == old(indices)
      ensures CacheExtends(old(cachedNormals), cachedNormals, heightMap, width)
      ensures found <==> LookupFaces(old(cachedNormals), heightMap, width, TouchingFaces(width, height, x, z)).Some?
      ensures found ==> average == AverageNormal(LookupFaces(old(cachedNormals), heightMap, width, TouchingFaces(width, height, x, z)).value)
    {
      ghost var start := cachedNormals;
      ghost var faces: seq<(int, int)> := [];
      ghost var ns: seq<Vector3> := [];
      var sum := Zero3;
      var count := 9;
      found := true;
      found, sum, count, faces, ns :=
        AddCachedNormal(start, NotOnLeftBorder(x) && NotOnTopBorder(z), found, faces, ns, sum, count, (x - 1, z - 1));
      found, sum, count, faces, ns :=
        AddCachedNormal(start, NotOnSampleRightBorder(width, x) && NotOnTopBorder(z), found, faces, ns, sum, count, (x, z - 1));
      found, sum, count, faces, ns :=
        AddCachedNormal(start, NotOnLeftBorder(x) && NotOnSampleBottomBorder(height, z), found, faces, ns, sum, count, (x - 1, z));
      found, sum, count, faces, ns :=
        AddCachedNormal(start, NotOnSampleRightBorder(width, x) && NotOnSampleBottomBorder(height, z), found, faces, ns, sum, count, (x, z));
      assert faces == TouchingFaces(width, height, x, z);
      average := if found then Divide(sum, count as real) else Zero3;
    }

    /**
     * One guarded block of `UpdateNormal`: when the guard holds and no
     * earlier lookup has thrown, the face's cached normal is added to the sum
     * and the count goes up by one; `found` becomes false when the lookup
     * throws.
     */
    method AddCachedNormal(ghost start: map<(int, int), Vector3>, guard: bool, found: bool, ghost faces: seq<(int, int)>, ghost ns: seq<Vector3>, sum: Vector3, count: int, f: (int, int))
      returns (found': bool, sum': Vector3, count': int, ghost faces': seq<(int, int)>, ghost ns': seq<Vector3>)
      requires CacheExtends(start, cachedNormals, heightMap, width)
      requires found <==> LookupFaces(start, heightMap, width, faces).Some?
      requires found ==> LookupFaces(start, heightMap, width, faces) == Some(ns) && sum == Sum(ns) && count == 9 + |ns|
      modifies this
      ensures width == old(width) && height == old(height) && heightMap == old(heightMap)
      ensures textureCreated == old(textureCreated)
      ensures vertexCount == old(vertexCount) && indexCount == old(indexCount)
      ensures vertices == old(vertices) && indices == old(indices)
      ensures CacheExtends(start, cachedNormals, heightMap, width)
      ensures faces' == faces + (if guard then [f] else [])
      ensures found' <==> LookupFaces(start, heightMap, width, faces').Some?
      ensures found' ==> LookupFaces(start, heightMap, width, faces') == Some(ns') && sum' == Sum(ns') && count' == 9 + |ns'|
    {
      if !guard {
        assert faces + [] == faces;
        return found, sum, count, faces, ns;
      }
      faces' := faces + [f];
      if !found {
        LookupFailureStays(start, heightMap, width, faces, [f]);
        return false, sum, count, faces', ns;
      }
      ghost var before := cachedNormals;
      var normal := GetCachedNormalForPosition(f.0, f.1);
      assert Lookup(before, heightMap, width, f) == Lookup(start, heightMap, width, f);
      LookupOneMore(start, heightMap, width, faces, f);
      if normal.None? {
        return false, sum, count, faces', ns;
      }
      found' := true;
      sum' := Add(sum, normal.value);
      count' := count + 1;
      ns' := ns + [normal.value];
      SumOneMore(ns, normal.value);
    }

    /**
     * Builds the triangle list: (W - 1)(H - 1) cells of six vertices each,
     * row by row, with index k pointing at vertex k. The buffers are created
     * from the arrays; `buffersCreated` says whether that worked. An empty
     * terrain gets six blank vertices and six zero indices.
     */
    method InitialiseBuffers(buffersCreated: bool) returns (ok: bool)
      requires Valid()
      modifies this
      ensures width == old(width) && height == old(height) && heightMap == old(heightMap)
      ensures cachedNormals == old(cachedNormals) && textureCreated == old(textureCreated)
      ensures Valid()
      ensures vertexCount == (width - 1) * (height - 1) * 6 && indexCount == vertexCount
      ensures |vertices| == vertexCount && |indices| == indexCount
      ensures width >= 1 ==> vertices == MeshRows(heightMap, width, height - 1)
      ensures width >= 1 ==> forall k :: 0 <= k < |indices| ==> indices[k] == k
      ensures width == 0 ==> forall k :: 0 <= k < |vertices| ==> vertices[k] == EmptyVertex && indices[k] == 0
      ensures ok == buffersCreated
    {
      var count, cells, order := BuildMesh(heightMap, width, height);
      vertexCount := count;
      indexCount := vertexCount;
      vertices, indices := cells, order;
      ok := buffersCreated;
    }

    /** Loads the texture; the texture object exists afterwards whether or not loading worked. */
    method LoadTexture(textureLoaded: bool) returns (ok: bool)
      modifies this
      ensures ok == textureLoaded && textureCreated
      ensures width == old(width) && height == old(height) && heightMap == old(heightMap)
      ensures cachedNormals == old(cachedNormals)
      ensures vertexCount == old(vertexCount) && indexCount == old(indexCount)
      ensures vertices == old(vertices) && indices == old(indices)
    {
      textureCreated := true;
      ok := textureLoaded;
    }

    /** Raises the height of entry `index` by `delta`; an index outside the list throws, which is `ok == false` with nothing changed. */
    method ChangeHeight(index: int, delta: real) returns (ok: bool)
      modifies this
      ensures ok <==> 0 <= index < |old(heightMap)|
      ensures ok ==> heightMap == old(heightMap)[index := Raised(old(heightMap)[index], delta)]
      ensures !ok ==> heightMap == old(heightMap)
      ensures width == old(width) && height == old(height) && cachedNormals == old(cachedNormals)
      ensures textureCreated == old(textureCreated)
      ensures vertexCount == old(vertexCount) && indexCount == old(indexCount)
      ensures vertices == old(vertices) && indices == old(indices)
    {
      if !(0 <= index < |heightMap|) {
        return false;
      }
      heightMap := heightMap[index := Raised(heightMap[index], delta)];
      ok := true;
    }

    /**
     * Raises sample (x, z) by `delta` and its eight neighbours by half of it,
     * recomputes the normals of the nine vertices of the 3 x 3 window, then
     * rebuilds the buffers (whose result is discarded). There are no bounds
     * checks: a raise or a normal update that throws stops it, `ok == false`,
     * with the changes made so far kept. The nine raises and the nine normal
     * updates are written as loops over their targets, in the source's order.
     */
    method ChangeHeightAtPosition(x: int, z: int, delta: real, unit: Vector3 -> Vector3) returns (ok: bool)
      requires Valid()
      modifies this
      ensures Valid() && width == old(width) && height == old(height)
      ensures textureCreated == old(textureCreated)
      ensures var raised := RaiseAll(old(heightMap), EditTargets(width, x, z), EditDeltas(delta));
        SameButNormals(raised.0, heightMap) && (ok ==> raised.1)
      ensures var raised := RaiseAll(old(heightMap), EditTargets(width, x, z), EditDeltas(delta));
        !raised.1 ==> heightMap == raised.0 && cachedNormals == old(cachedNormals)
      ensures ok && width >= 1 ==> vertices == MeshRows(heightMap, width, height - 1)
      ensures ok ==> vertexCount == (width - 1) * (height - 1) * 6 == |vertices|
      ensures !ok ==> vertices == old(vertices) && indices == old(indices)
    {
      ghost var raised := RaiseAll(heightMap, EditTargets(width, x, z), EditDeltas(delta));
      ok := RaiseTargets(EditTargets(width, x, z), EditDeltas(delta));
      assert (heightMap, ok) == raised;
      if !ok {
        SameButNormalsReflexive(heightMap);
        return;
      }
      assert raised.1;
      ok := RenormaliseWindow(x, z, unit);
      if !ok {
        return;
      }
      var built := InitialiseBuffers(true);
      ok := true;
    }

    /** The nine `ChangeHeight` calls of `ChangeHeightAtPosition`, in order, stopping at the first that throws. */
    method RaiseTargets(targets: seq<int>, deltas: seq<real>) returns (ok: bool)
      requires Valid() && |targets| == |deltas|
      modifies this
      ensures Valid() && width == old(width) && height == old(height)
      ensures (heightMap, ok) == RaiseAll(old(heightMap), targets, deltas)
      ensures cachedNormals == old(cachedNormals) && textureCreated == old(textureCreated)
      ensures vertexCount == old(vertexCount) && indexCount == old(indexCount)
      ensures vertices == old(vertices) && indices == old(indices)
    {
      ghost var raised := RaiseAll(heightMap, targets, deltas);
      ok := true;
      for n := 0 to |targets|
        invariant Valid() && width == old(width) && height == old(height)
        invariant RaiseAll(heightMap, targets[n..], deltas[n..]) == raised
        invariant cachedNormals == old(cachedNormals) && textureCreated == old(textureCreated)
        invariant vertexCount == old(vertexCount) && indexCount == old(indexCount)
        invariant vertices == old(vertices) && indices == old(indices)
      {
        assert targets[n..][1..] == targets[n + 1..] && deltas[n..][1..] == deltas[n + 1..];
        ok := ChangeHeight(targets[n], deltas[n]);
        if !ok {
          return;
        }
      }
    }

    /** The nine `UpdateNormal` calls of `ChangeHeightAtPosition`, row by row, stopping at the first that throws; only normals change. */
    method RenormaliseWindow(x: int, z: int, unit: Vector3 -> Vector3) returns (ok: bool)
      requires Valid()
      modifies this
      ensures Valid() && width == old(width) && height == old(height)
      ensures SameButNormals(old(heightMap), heightMap)
      ensures textureCreated == old(textureCreated)
      ensures vertices == old(vertices) && indices == old(indices)
    {
      SameButNormalsReflexive(heightMap);
      ok := true;
      for n := 0 to |RenormalOffsets|
        invariant Valid() && width == old(width) && height == old(height)
        invariant SameButNormals(old(heightMap), heightMap)
        invariant textureCreated == old(textureCreated)
        invariant vertices == old(vertices) && indices == old(indices)
      {
        ghost var before := heightMap;
        ok := UpdateNormal(x + RenormalOffsets[n].0, z + RenormalOffsets[n].1, unit);
        SameButNormalsTransitive(old(heightMap), before, heightMap);
        if !ok {
          return;
        }
      }
    }

    /** Replaces the normal of entry `index`; an index outside the list throws, which is `ok == false` with nothing changed. */
    method ChangeNormal(index: int, normal: Vector3) returns (ok: bool)
      modifies this
      ensures ok <==> 0 <= index < |old(heightMap)|
      ensures ok ==> heightMap == old(heightMap)[index := WithNormal(old(heightMap)[index], normal)]
      ensures !ok ==> heightMap == old(heightMap)
      ensures width == old(width) && height == old(height) && cachedNormals == old(cachedNormals)
      ensures textureCreated == old(textureCreated)
      ensures vertexCount == old(vertexCount) && indexCount == old(indexCount)
      ensures vertices == old(vertices) && indices == old(indices)
    {
      if !(0 <= index < |heightMap|) {
        return false;
      }
      heightMap := heightMap[index := WithNormal(heightMap[index], normal)];
      ok := true;
    }
  }

  /**
   * The walk of `CalculateTextureCoordinates` over a W x H map: tu comes from
   * a counter over all samples and tv from a counter over the rows, each
   * reset to its start after W / 8 steps of 8 / W.
   */
  method TextureWalk(m: seq<Sample>, width: nat, height: nat) returns (samples: seq<Sample>)
    requires |m| == width * height
    ensures samples == TexturedMap(m, width)
  {
    samples := m;
    var step := TextureStep(width);
    var cycle := TextureCycle(width);
    var tu, tv := 0.0, 1.0;
    var tuCount, tvCount := 0, 0;
    var rowStart := 0;
    for j := 0 to height
      invariant rowStart == j * width
      invariant |samples| == |m| && rowStart <= |samples|
      invariant j == height ==> rowStart == |samples|
      invariant tuCount == Counter(cycle, rowStart) && tu == TuAt(width, rowStart)
      invariant tvCount == Counter(cycle, j) && tv == TvAt(width, j)
      invariant forall k :: 0 <= k < rowStart ==> width > 0 && samples[k] == Textured(m[k], width, k)
      invariant forall k :: rowStart <= k < |samples| ==> samples[k] == m[k]
    {
      RowAfterRow(width, height, j);
      samples, tu, tuCount := TextureRow(m, width, height, j, rowStart, samples, tu, tuCount, tv);
      tv := tv - step;
      tvCount := tvCount + 1;
      if tvCount == cycle {
        tv := 1.0;
        tvCount := 0;
      }
      rowStart := rowStart + width;
    }
    TexturedMapFromEntries(m, width, samples);
  }

  /** The inner loop of `GetNewNormals`: the normals of face row z into their slots. */
  method FillFaceRow(m: seq<Sample>, width: int, height: int, z: int, rowStart: int, normals: array<Vector3>)
    requires |m| == width * height && width >= 1 && 0 <= z < height - 1
    requires rowStart == Index(width - 1, 0, z) && normals.Length == (width - 1) * (height - 1)
    requires rowStart + (width - 1) <= normals.Length
    modifies normals
    ensures forall q :: 0 <= q < rowStart ==> normals[q] == old(normals[q])
    ensures forall q :: rowStart <= q < rowStart + (width - 1) ==> normals[q] == FaceRows(m, width, height - 1)[q]
  {
    for x := 0 to width - 1
      invariant forall q :: 0 <= q < rowStart ==> normals[q] == old(normals[q])
      invariant forall i :: 0 <= i < x ==> normals[rowStart + i] == GridFace(m, width, i, z)
    {
      var normal := GridFace(m, width, x, z);
      var sampleIndex := FaceSlot(width, (x, z));
      normals[sampleIndex] := normal;
    }
    forall q | rowStart <= q < rowStart + (width - 1)
      ensures normals[q] == FaceRows(m, width, height - 1)[q]
    {
      FaceRowsAt(m, width, height - 1, q - rowStart, z);
    }
  }

  /** The loops of `UpdateNormals` over a W x H map, row by row, each vertex's normal replaced as `ChangeNormal` does. */
  method NormalsFromArray(m: seq<Sample>, normals: array<Vector3>, width: int, height: int, unit: Vector3 -> Vector3) returns (samples: seq<Sample>)
    requires width >= 1 && |m| == width * height && normals.Length == (width - 1) * (height - 1)
    ensures samples == ArrayNormalled(m, normals[..], width, height, unit)
  {
    samples := m;
    var rowStart := 0;
    for z := 0 to height
      invariant rowStart == Index(width, 0, z) && rowStart <= |m|
      invariant |samples| == |m|
      invariant forall k :: 0 <= k < rowStart ==> samples[k] == ArrayNormalled(m, normals[..], width, height, unit)[k]
      invariant forall k :: rowStart <= k < |samples| ==> samples[k] == m[k]
    {
      RowAfterRow(width, height, z);
      samples := NormalsRow(m, normals, width, height, unit, z, rowStart, samples);
      rowStart := rowStart + width;
    }
  }

  /** The inner loop of `UpdateNormals`: the normals of row z. */
  method NormalsRow(m: seq<Sample>, normals: array<Vector3>, width: int, height: int, unit: Vector3 -> Vector3, z: int, rowStart: int, samples: seq<Sample>)
    returns (written: seq<Sample>)
    requires width >= 1 && |m| == width * height && normals.Length == (width - 1) * (height - 1)
    requires 0 <= z < height && rowStart == Index(width, 0, z) && rowStart + width <= |m|
    requires |samples| == |m|
    requires forall k :: 0 <= k < rowStart ==> samples[k] == ArrayNormalled(m, normals[..], width, height, unit)[k]
    requires forall k :: rowStart <= k < |samples| ==> samples[k] == m[k]
    ensures |written| == |m|
    ensures forall k :: 0 <= k < rowStart + width ==> written[k] == ArrayNormalled(m, normals[..], width, height, unit)[k]
    ensures forall k :: rowStart + width <= k < |written| ==> written[k] == m[k]
  {
    written := samples;
    for x := 0 to width
      invariant |written| == |m|
      invariant forall k :: 0 <= k < rowStart + x ==> written[k] == ArrayNormalled(m, normals[..], width, height, unit)[k]
      invariant forall k :: rowStart + x <= k < |written| ==> written[k] == m[k]
    {
      var average := ArrayAverage(normals, width, height, x, z);
      var index := Index(width, x, z);
      PositionToIndex(width, height, x, z);
      written := written[index := WithNormal(written[index], unit(average))];
    }
  }

  /**
   * The arrays `InitialiseBuffers` fills: (W - 1)(H - 1) * 6 vertices and as
   * many indices, both starting out blank, then every cell written by
   * `FillMesh`. On an empty terrain the loops run no iteration.
   */
  method BuildMesh(m: seq<Sample>, width: int, height: int)
    returns (count: int, vertices: seq<PositionTextureNormalVertex>, indices: seq<int>)
    requires (width == 0 && height == 0) || (width >= 1 && height >= 1 && |m| == width * height)
    ensures count == (width - 1) * (height - 1) * 6
    ensures |vertices| == count && |indices| == count
    ensures width >= 1 ==> vertices == MeshRows(m, width, height - 1)
    ensures width >= 1 ==> forall k :: 0 <= k < |indices| ==> indices[k] == k
    ensures width == 0 ==> forall k :: 0 <= k < |vertices| ==> vertices[k] == EmptyVertex && indices[k] == 0
  {
    if width >= 1 {
      ProductMonotone(0, width - 1, height - 1);
    }
    count := (width - 1) * (height - 1) * 6;
    var cells := new PositionTextureNormalVertex[count](_ => EmptyVertex);
    var order := new int[count](_ => 0);
    if width >= 1 {
      FillMesh(m, width, height, cells, order);
    }
    vertices, indices := cells[..], order[..];
  }

  /** The loops of `InitialiseBuffers`: every cell of the grid, row by row, into the arrays, with a running index. */
  method FillMesh(m: seq<Sample>, width: int, height: int, cells: array<PositionTextureNormalVertex>, order: array<int>)
    requires width >= 1 && height >= 1 && |m| == width * height
    requires cells.Length == (width - 1) * (height - 1) * 6 && order.Length == cells.Length
    modifies cells, order
    ensures cells[..] == MeshRows(m, width, height - 1)
    ensures forall k :: 0 <= k < order.Length ==> order[k] == k
  {
    var cols, rows := width - 1, height - 1;
    var index := 0;
    for j := 0 to rows
      invariant index == 6 * cols * j
      invariant cells[..index] == MeshRows(m, width, j)
      invariant forall k :: 0 <= k < index ==> order[k] == k
    {
      RowFits(cols, rows, j, cells.Length);
      index := FillMeshRow(m, width, height, j, index, MeshRows(m, width, j), cells, order);
      CellGridGrows(MeshCells(m, width), width - 1, j);
    }
    BufferLength(cols, rows, cells.Length);
    assert cells[..] == cells[..index];
  }

  /** The inner loop of `InitialiseBuffers`: the cells of row j, after the `prefix` already written. */
  method FillMeshRow(m: seq<Sample>, width: int, height: int, j: int, index: int, ghost prefix: seq<PositionTextureNormalVertex>,
                     cells: array<PositionTextureNormalVertex>, order: array<int>) returns (next: int)
    requires width >= 1 && |m| == width * height && 0 <= j < height - 1
    requires 0 <= index && index + 6 * (width - 1) <= cells.Length && order.Length == cells.Length
    requires cells[..index] == prefix
    requires forall k :: 0 <= k < index ==> order[k] == k
    modifies cells, order
    ensures next == index + 6 * (width - 1)
    ensures cells[..next] == prefix + CellRow(MeshCells(m, width), j, width - 1)
    ensures forall k :: 0 <= k < next ==> order[k] == k
  {
    next := index;
    for i := 0 to width - 1
      invariant next == index + 6 * i
      invariant cells[..next] == prefix + CellRow(MeshCells(m, width), j, i)
      invariant forall k :: 0 <= k < next ==> order[k] == k
    {
      next := WriteCell(m, width, height, i, j, next, cells, order);
      CellRowGrows(prefix, MeshCells(m, width), j, i);
    }
  }

  /**
   * One cell of `InitialiseBuffers`: the upper-left, upper-right and
   * bottom-left vertices, then bottom left, upper right and bottom right, the
   * top edge's tv of 1 drawn as 0 and the right edge's tu of 0 as 1; index k
   * set to k as each vertex is written.
   */
  method WriteCell(m: seq<Sample>, width: int, height: int, i: int, j: int, index: int,
                   cells: array<PositionTextureNormalVertex>, order: array<int>) returns (next: int)
    requires |m| == width * height && IsFace(width, height, (i, j))
    requires 0 <= index && index + 6 <= cells.Length && order.Length == cells.Length
    modifies cells, order
    ensures next == index + 6
    ensures cells[..next] == old(cells[..index]) + CellMesh(m, width, i, j)
    ensures forall k :: 0 <= k < next ==> order[k] == (if k < index then old(order[k]) else k)
  {
    CornerSlotsFromBottomLeft(width, height, i, j);
    var bottomLeft := Index(width, i, j);
    var bottomRight := bottomLeft + 1;
    var upperLeft := bottomLeft + width;
    var upperRight := upperLeft + 1;
    var first := ToVertex(m[upperLeft]).(tv := TopEdge(m[upperLeft].tv));
    var second := ToVertex(m[upperRight]).(tu := RightEdge(m[upperRight].tu), tv := TopEdge(m[upperRight].tv));
    var third := ToVertex(m[bottomLeft]);
    var sixth := ToVertex(m[bottomRight]).(tu := RightEdge(m[bottomRight].tu));
    ghost var cell := CellMesh(m, width, i, j);
    assert cell == [first, second, third, third, second, sixth];
    PutSix(cells, index, [first, second, third, third, second, sixth]);
    PutSix(order, index, [index, index + 1, index + 2, index + 3, index + 4, index + 5]);
    next := index + 6;
  }

  /**
   * The inner loop body of `UpdateNormals` for vertex (x, z): the normals of
   * the faces around it, read from their slots under the four border guards,
   * summed from zero and divided by 9 plus their number.
   */
  method ArrayAverage(normals: array<Vector3>, width: int, height: int, x: int, z: int) returns (average: Vector3)
    requires 0 <= x < width && 0 <= z < height && normals.Length == (width - 1) * (height - 1)
    ensures average == AverageNormal(StoredFaces(normals[..], width, TouchingFaces(width, height, x, z)))
  {
    var sum := Zero3;
    var count := 9;
    ghost var faces: seq<(int, int)> := [];
    if NotOnLeftBorder(x) && NotOnTopBorder(z) {
      sum, count, faces := AddStored(normals, width, height, faces, sum, count, (x - 1, z - 1));
    }
    if NotOnSampleRightBorder(width, x) && NotOnTopBorder(z) {
      sum, count, faces := AddStored(normals, width, height, faces, sum, count, (x, z - 1));
    }
    if NotOnLeftBorder(x) && NotOnSampleBottomBorder(height, z) {
      sum, count, faces := AddStored(normals, width, height, faces, sum, count, (x - 1, z));
    }
    if NotOnSampleRightBorder(width, x) && NotOnSampleBottomBorder(height, z) {
      sum, count, faces := AddStored(normals, width, height, faces, sum, count, (x, z));
    }
    assert faces == TouchingFaces(width, height, x, z);
    average := Divide(sum, count as real);
  }

  /** One guarded block of `UpdateNormals`: the face's normal read from its slot and added to the sum, the count up by one. */
  method AddStored(normals: array<Vector3>, width: int, height: int, ghost faces: seq<(int, int)>, sum: Vector3, count: int, f: (int, int))
    returns (newSum: Vector3, newCount: int, ghost newFaces: seq<(int, int)>)
    requires IsFace(width, height, f) && normals.Length == (width - 1) * (height - 1)
    requires sum == Sum(StoredFaces(normals[..], width, faces)) && count == 9 + |faces|
    ensures newFaces == faces + [f]
    ensures newSum == Sum(StoredFaces(normals[..], width, newFaces)) && newCount == 9 + |newFaces|
  {
    FaceSlotInArray(width, height, f);
    newSum := Add(sum, normals[FaceSlot(width, f)]);
    newCount := count + 1;
    newFaces := faces + [f];
    StoredOneMore(normals[..], width, faces, f);
    SumOneMore(StoredFaces(normals[..], width, faces), SlotNormal(normals[..], FaceSlot(width, f)));
  }

  /**
   * The inner loop of `TextureWalk`: writes row j of a
   * W x H map, sample by sample, advancing tu and its counter; tv stays the
   * row's value.
   */
  method TextureRow(m: seq<Sample>, width: nat, height: nat, j: nat, rowStart: nat, samples: seq<Sample>, tu: real, tuCount: nat, tv: real)
    returns (written: seq<Sample>, nextTu: real, nextCount: nat)
    requires |m| == width * height && j < height && rowStart == j * width && rowStart + width <= |m|
    requires |samples| == |m|
    requires tuCount == Counter(TextureCycle(width), rowStart) && tu == TuAt(width, rowStart) && tv == TvAt(width, j)
    requires forall k :: 0 <= k < rowStart ==> width > 0 && samples[k] == Textured(m[k], width, k)
    requires forall k :: rowStart <= k < |samples| ==> samples[k] == m[k]
    ensures |written| == |m|
    ensures nextCount == Counter(TextureCycle(width), rowStart + width) && nextTu == TuAt(width, rowStart + width)
    ensures forall k :: 0 <= k < rowStart + width ==> width > 0 && written[k] == Textured(m[k], width, k)
    ensures forall k :: rowStart + width <= k < |written| ==> written[k] == m[k]
  {
    var step := TextureStep(width);
    var cycle := TextureCycle(width);
    written, nextTu, nextCount := samples, tu, tuCount;
    for i := 0 to width
      invariant |written| == |m|
      invariant nextCount == Counter(cycle, rowStart + i) && nextTu == TuAt(width, rowStart + i)
      invariant forall k :: 0 <= k < rowStart + i ==> width > 0 && written[k] == Textured(m[k], width, k)
      invariant forall k :: rowStart + i <= k < |written| ==> written[k] == m[k]
    {
      var index := rowStart + i;
      PositionToIndex(width, height, i, j);
      written := written[index := written[index].(tu := nextTu, tv := tv)];
      nextTu := nextTu + step;
      nextCount := nextCount + 1;
      if nextCount == cycle {
        nextTu := 0.0;
        nextCount := 0;
      }
    }
  }
}
