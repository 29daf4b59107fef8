/**
 * `Object`: a textured model read from a text file. Line 0 carries the vertex
 * count after a ':'; lines 4 onwards hold one vertex each as eight
 * space-separated numbers (position, texture coordinate, normal). The vertices
 * are copied into a vertex array with the identity index list.
 */
module GraphicsObject {
  import opened Wrappers
  import opened TextParsing
  import opened Vertices

  /** `ObjectFormat`: one vertex record; a fresh array holds all-zero records. */
  datatype ObjectFormat = ObjectFormat(x: real, y: real, z: real, tu: real, tv: real, nx: real, ny: real, nz: real)

  const EmptyRecord: ObjectFormat := ObjectFormat(0.0, 0.0, 0.0, 0.0, 0.0, 0.0, 0.0, 0.0)

  /** The first line index that holds vertex data. */
  const FirstDataLine: nat := 4

  /** The vertex count: the text after the first ':' of line 0 (up to any second ':'), trimmed and parsed. */
  function HeaderCount(lines: seq<string>, parseInt: string -> Option<int>): (count: Option<int>)
    ensures count.Some? ==> |lines| > 0 && |SplitAll(lines[0], ':')| >= 2
    ensures count.Some? ==> parseInt(Trim(SplitAll(lines[0], ':')[1])) == count
    ensures |lines| > 0 && |SplitAll(lines[0], ':')| >= 2 && count.None? ==> parseInt(Trim(SplitAll(lines[0], ':')[1])).None?
  {
    if |lines| == 0 then None
    else
      var fields := SplitAll(lines[0], ':');
      if |fields| < 2 then None else parseInt(Trim(fields[1]))
  }

  /** One data line: its first eight space-separated tokens, in order; extra tokens are ignored. */
  function Record(line: string, parseFloat: string -> Option<real>): (record: Option<ObjectFormat>)
    ensures record.Some? ==> var t := SplitNonEmpty(line, ' ');
      && |t| >= 8
      && parseFloat(t[0]) == Some(record.value.x) && parseFloat(t[1]) == Some(record.value.y)
      && parseFloat(t[2]) == Some(record.value.z) && parseFloat(t[3]) == Some(record.value.tu)
      && parseFloat(t[4]) == Some(record.value.tv) && parseFloat(t[5]) == Some(record.value.nx)
      && parseFloat(t[6]) == Some(record.value.ny) && parseFloat(t[7]) == Some(record.value.nz)
    ensures record.None? ==> var t := SplitNonEmpty(line, ' ');
      |t| < 8 || exists k :: 0 <= k < 8 && parseFloat(t[k]).None?
  {
    var t := SplitNonEmpty(line, ' ');
    if |t| < 8 then None
    else
      var x :- parseFloat(t[0]);
      var y :- parseFloat(t[1]);
      var z :- parseFloat(t[2]);
      var tu :- parseFloat(t[3]);
      var tv :- parseFloat(t[4]);
      var nx :- parseFloat(t[5]);
      var ny :- parseFloat(t[6]);
      var nz :- parseFloat(t[7]);
      Some(ObjectFormat(x, y, z, tu, tv, nx, ny, nz))
  }

  /** The last line index (exclusive) the data loop reaches: `min(lines.Count, 4 + count)`. */
  function DataEnd(lines: seq<string>, count: int): int
  {
    if |lines| < FirstDataLine + count then |lines| else FirstDataLine + count
  }

  /**
   * The first line index from `i` on at which the data loop stops: where it ends
   * or at the first line that does not parse.
   */
  function StopLine(lines: seq<string>, count: int, i: nat, parseFloat: string -> Option<real>): (n: nat)
    requires FirstDataLine <= i
    ensures i <= n
    ensures forall j :: i <= j < n ==> j < DataEnd(lines, count) && Record(lines[j], parseFloat).Some?
    ensures n < DataEnd(lines, count) ==> Record(lines[n], parseFloat).None?
    ensures n <= DataEnd(lines, count) || n == i
    decreases |lines| - i
  {
    if i >= DataEnd(lines, count) || Record(lines[i], parseFloat).None? then i
    else StopLine(lines, count, i + 1, parseFloat)
  }

  /** The vertex built from record `r`, field for field. */
  function VertexOf(r: ObjectFormat): PositionTextureNormalVertex
  {
    PositionTextureNormalVertex(Vector3(r.x, r.y, r.z), r.tu, r.tv, Vector3(r.nx, r.ny, r.nz))
  }

  /** What slot `k` holds after the data loop: the parsed line 4 + k if the loop got past it, else a zero record. */
  function LoadedRecord(lines: seq<string>, count: int, k: nat, parseFloat: string -> Option<real>): ObjectFormat
  {
    if FirstDataLine + k < StopLine(lines, count, FirstDataLine, parseFloat) then
      Record(lines[FirstDataLine + k], parseFloat).value
    else EmptyRecord
  }

  /**
   * The file loads: line 0 gives a count n >= 0 and each of lines 4 .. 3 + n
   * that the file has parses as a record.
   */
  ghost predicate Loads(lines: seq<string>, parseFloat: string -> Option<real>, parseInt: string -> Option<int>)
  {
    && HeaderCount(lines, parseInt).Some?
    && HeaderCount(lines, parseInt).value >= 0
    && StopLine(lines, HeaderCount(lines, parseInt).value, FirstDataLine, parseFloat)
       >= DataEnd(lines, HeaderCount(lines, parseInt).value)
  }

  /**
   * The data loop of `LoadObject`: a fresh array of `count` zero records, then
   * record i - 4 from line i for each i from 4 while i < lines.Count and
   * i < 4 + count; false at the first line that does not parse.
   */
  method ReadRecords(lines: seq<string>, count: nat, parseFloat: string -> Option<real>)
      returns (records: array<ObjectFormat>, ok: bool)
    ensures fresh(records) && records.Length == count
    ensures ok <==> StopLine(lines, count, FirstDataLine, parseFloat) >= DataEnd(lines, count)
    ensures forall k :: 0 <= k < count ==> records[k] == LoadedRecord(lines, count, k, parseFloat)
  {
    records := new ObjectFormat[count](_ => EmptyRecord);
    ghost var stop := StopLine(lines, count, FirstDataLine, parseFloat);
    var i := FirstDataLine;
    while i < |lines| && i < FirstDataLine + count
      invariant FirstDataLine <= i <= stop
      invariant StopLine(lines, count, i, parseFloat) == stop
      invariant Filled(records[..], lines, count, parseFloat, i)
      decreases |lines| - i
    {
      var record := Record(lines[i], parseFloat);
      if record.None? {
        return records, false;
      }
      FilledOneMore(records[..], lines, count, parseFloat, i);
      records[i - FirstDataLine] := record.value;
      i := i + 1;
    }
    ok := true;
  }

  /** The records after the data loop reached line `i`: loaded below it, zero from it on. */
  ghost predicate Filled(records: seq<ObjectFormat>, lines: seq<string>, count: nat, parseFloat: string -> Option<real>, i: int)
  {
    && |records| == count
    && (forall k :: 0 <= k < count && FirstDataLine + k < i ==> records[k] == LoadedRecord(lines, count, k, parseFloat))
    && (forall k :: 0 <= k < count && FirstDataLine + k >= i ==> records[k] == EmptyRecord)
  }

  /** Storing line `i`'s record into its slot fills one more line. */
  lemma FilledOneMore(records: seq<ObjectFormat>, lines: seq<string>, count: nat, parseFloat: string -> Option<real>, i: int)
    requires Filled(records, lines, count, parseFloat, i)
    requires FirstDataLine <= i < |lines| && i < FirstDataLine + count
    requires i < StopLine(lines, count, FirstDataLine, parseFloat)
    ensures Record(lines[i], parseFloat).Some?
    ensures Filled(records[i - FirstDataLine := Record(lines[i], parseFloat).value], lines, count, parseFloat, i + 1)
  {
    var stored := records[i - FirstDataLine := Record(lines[i], parseFloat).value];
    forall k | 0 <= k < count && FirstDataLine + k < i + 1
      ensures stored[k] == LoadedRecord(lines, count, k, parseFloat)
    {
      if FirstDataLine + k < i {
        assert stored[k] == records[k];
      }
    }
    forall k | 0 <= k < count && FirstDataLine + k >= i + 1
      ensures stored[k] == EmptyRecord
    {
      assert stored[k] == records[k];
    }
  }

  class Object {
    var vertexCount: int
    var indexCount: int
    /** `ModelObject`; `null` until `LoadObject` allocates it. */
    var modelObject: array?<ObjectFormat>
    /** The contents handed to the vertex and index buffers. */
    var vertices: seq<PositionTextureNormalVertex>
    var indices: seq<int>

    constructor ()
      ensures vertexCount == 0 && indexCount == 0 && modelObject == null
    {
      vertexCount, indexCount := 0, 0;
      modelObject := null;
      vertices, indices := [], [];
    }

    /**
     * Runs the three steps, each one even after a failure, and ANDs the results.
     * `file` is the model file's lines, `None` when it cannot be read;
     * `buffersCreated` says whether the GPU accepted the two buffers.
     */
    method Initialise(file: Option<seq<string>>, parseFloat: string -> Option<real>, parseInt: string -> Option<int>,
                      buffersCreated: bool, textureInitialised: bool) returns (result: bool)
      modifies this
      ensures result <==> file.Some? && Loads(file.value, parseFloat, parseInt) && buffersCreated
      ensures result ==> |vertices| == vertexCount == indexCount == |indices|
      ensures result ==>
        var n := HeaderCount(file.value, parseInt).value;
        && |vertices| == n
        && forall i :: 0 <= i < n ==>
             vertices[i] == VertexOf(LoadedRecord(file.value, n, i, parseFloat)) && indices[i] == i
    {
      result := true;
      var loaded := LoadObject(file, parseFloat, parseInt);
      result := result && loaded;
      var buffers := InitialiseBuffers(buffersCreated);
      result := result && buffers;
      var texture := LoadTexture(textureInitialised);
      result := result && texture;
    }

    /**
     * Reads the count from line 0 (setting `_vertexCount` and `IndexCount`
     * before the array is allocated), then fills the records from the data
     * lines. Any exception makes it return false, keeping whatever was set up to
     * that point; a negative count fails at the allocation.
     */
    method LoadObject(file: Option<seq<string>>, parseFloat: string -> Option<real>, parseInt: string -> Option<int>)
      returns (ok: bool)
      modifies this
      ensures vertices == old(vertices) && indices == old(indices)
      ensures (file.None? || HeaderCount(file.value, parseInt).None?) ==>
        !ok && vertexCount == old(vertexCount) && indexCount == old(indexCount) && modelObject == old(modelObject)
      ensures file.Some? && HeaderCount(file.value, parseInt).Some? ==>
        var count := HeaderCount(file.value, parseInt).value;
        && vertexCount == count && indexCount == count
        && (count < 0 ==> !ok && modelObject == old(modelObject))
        && (count >= 0 ==>
          && modelObject != null && fresh(modelObject) && modelObject.Length == count
          && (ok <==> StopLine(file.value, count, FirstDataLine, parseFloat) >= DataEnd(file.value, count))
          && forall k :: 0 <= k < count ==> modelObject[k] == LoadedRecord(file.value, count, k, parseFloat))
    {
      if file.None? {
        return false;
      }
      var lines := file.value;
      var header := HeaderCount(lines, parseInt);
      if header.None? {
        return false;
      }
      var count := header.value;
      vertexCount := count;
      indexCount := vertexCount;
      if count < 0 {
        return false;
      }
      var records;
      records, ok := ReadRecords(lines, count, parseFloat);
      modelObject := records;
    }

    /**
     * Copies record i into vertex i and sets index i to i, then creates the two
     * buffers. With no records allocated, or a negative count, the array
     * operations throw; a buffer the GPU refuses (`buffersCreated` false)
     * throws too; every throw returns false.
     */
    method InitialiseBuffers(buffersCreated: bool) returns (ok: bool)
      modifies this
      ensures vertexCount == old(vertexCount) && indexCount == old(indexCount) && modelObject == old(modelObject)
      ensures ok <==>
        && 0 <= vertexCount && 0 <= indexCount
        && (vertexCount == 0 || (modelObject != null && vertexCount <= modelObject.Length && vertexCount <= indexCount))
        && buffersCreated
      ensures ok ==> |vertices| == vertexCount && |indices| == indexCount
      ensures ok && vertexCount > 0 ==>
        && modelObject != null
        && forall i :: 0 <= i < vertexCount ==> vertices[i] == VertexOf(modelObject[i]) && indices[i] == i
      ensures !ok ==> vertices == old(vertices) && indices == old(indices)
    {
      if vertexCount < 0 || indexCount < 0 {
        return false;
      }
      var records := modelObject;
      var vertexArray := new PositionTextureNormalVertex[vertexCount];
      var indexArray := new int[indexCount];
      for i := 0 to vertexCount
        modifies vertexArray, indexArray
        invariant i > 0 ==> records != null && i <= records.Length && i <= indexArray.Length
        invariant records != null ==>
          forall k :: 0 <= k < i && k < records.Length && k < indexArray.Length ==>
            vertexArray[k] == VertexOf(records[k]) && indexArray[k] == k
      {
        if records == null || i >= records.Length || i >= indexArray.Length {
          return false;
        }
        vertexArray[i] := VertexOf(records[i]);
        indexArray[i] := i;
      }
      if !buffersCreated {
        return false;
      }
      vertices := vertexArray[..];
      indices := indexArray[..];
      ok := true;
    }

    /** The texture's own result is ignored: loading the texture always reports success. */
    method LoadTexture(textureInitialised: bool) returns (ok: bool)
      ensures ok
    {
      ok := true;
    }
  }
}
