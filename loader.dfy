/**
 * loader.cpp: loading a structured volume from a raw file or from an IDX
 * query, and turning contouring output into isosurface geometry.
 */
module Loader {
  import opened Wrappers
  import opened Geometry
  import opened JsonConfig
  import opened Volume

  // ---------------------------------------------------------------------
  // Sizes and bounds shared by both structured loaders

  predicate NonNegative(d: Int3) {
    d.x >= 0 && d.y >= 0 && d.z >= 0
  }

  /** `n_voxels * voxel_size`: the byte count of a dims.x * dims.y * dims.z grid. */
  function ByteCount(d: Int3, width: nat): (n: nat)
    requires NonNegative(d)
    ensures n == 0 <==> d.x == 0 || d.y == 0 || d.z == 0 || width == 0
  {
    var xy: nat := d.x * d.y;
    var xyz: nat := xy * d.z;
    xyz * width
  }

  /** `dims * spacing`, componentwise. */
  function Scale(d: Int3, spacing: Vec3): Vec3 {
    Vec3(d.x as real * spacing.x, d.y as real * spacing.y, d.z as real * spacing.z)
  }

  const Origin := Vec3(0.0, 0.0, 0.0)

  // ---------------------------------------------------------------------
  // load_raw_volume

  /** The four entries load_raw_volume reads exist (operator[] of a const json on a missing key is undefined). */
  predicate RawConfigPresent(config: map<string, Json>) {
    && "volume" in config && "spacing" in config && "size" in config && "type" in config
    && (config["spacing"].JArray? ==> |config["spacing"].items| >= 3)
    && (config["size"].JArray? ==> |config["size"].items| >= 3)
  }

  /** The fields of the configuration, read in the order the source reads them. */
  datatype RawConfig = RawConfig(volume: string, spacing: Vec3, dims: Int3, typeName: string)

  /**
   * The entries read before the type dispatch: the file name, get_vec<float, 3>
   * of "spacing" and get_vec<int, 3> of "size", which becomes the brick's dims
   * unchecked (a negative size is not rejected), and the type string.
   */
  function ParseRawConfig(config: map<string, Json>): (r: Result<RawConfig, LoadError>)
    requires RawConfigPresent(config)
    ensures r.Ok? <==>
      && GetString(config["volume"]).Ok? && Vec(config["spacing"], 3, GetReal).Ok?
      && Vec(config["size"], 3, GetInt).Ok? && GetString(config["type"]).Ok?
    ensures r.Ok? ==>
      && config["spacing"].JArray? && config["size"].JArray?
      && r.value.volume == config["volume"].s && r.value.typeName == config["type"].s
      && var sp, sz := config["spacing"].items, config["size"].items;
      && GetReal(sp[0]) == Ok(r.value.spacing.x) && GetReal(sp[1]) == Ok(r.value.spacing.y)
      && GetReal(sp[2]) == Ok(r.value.spacing.z)
      && GetInt(sz[0]) == Ok(r.value.dims.x) && GetInt(sz[1]) == Ok(r.value.dims.y)
      && GetInt(sz[2]) == Ok(r.value.dims.z)
  {
    var volume :- GetString(config["volume"]);
    var spacing :- Vec(config["spacing"], 3, GetReal);
    assert forall i :: 0 <= i < 3 ==> config["spacing"].items[..3][i] == config["spacing"].items[i];
    var size :- Vec(config["size"], 3, GetInt);
    assert forall i :: 0 <= i < 3 ==> config["size"].items[..3][i] == config["size"].items[i];
    var typeName :- GetString(config["type"]);
    Ok(RawConfig(volume, Vec3(spacing[0], spacing[1], spacing[2]), Int3(size[0], size[1], size[2]), typeName))
  }

  /** libstdc++'s `max_size()` of a `std::vector<uint8_t>` (PTRDIFF_MAX): a larger size throws `length_error`. */
  const MaxVectorSize: nat := 0x7fff_ffff_ffff_ffff

  /**
   * `n_voxels * voxel_size` as load_raw_volume computes it: the signed
   * 64-bit `long_product()` of the dims, its overflow taken as wrap-around,
   * converted to `size_t` and multiplied by the width; that is, the exact
   * product modulo 2^64. For non-negative dims whose byte count fits, this
   * is the byte count; a negative product wraps around.
   */
  function WrappedByteCount(d: Int3, width: nat): (n: nat)
    ensures n < U64
    ensures NonNegative(d) && ByteCount(d, width) < U64 ==> n == ByteCount(d, width)
  {
    (d.x * d.y * d.z * width) % U64
  }

  /**
   * `load_raw_volume(config)`, with the raw file's content as a parameter
   * (None: the file cannot be opened). The type string is checked before the
   * file is touched; the buffer of the wrapped byte count is allocated, which
   * throws past `max_size()`; the buffer is the first that many bytes of the
   * file, and a file with fewer bytes fails the read.
   */
  function LoadRawVolume(config: map<string, Json>, file: Option<seq<byte>>): (r: Result<VolumeBrick, LoadError>)
    requires RawConfigPresent(config)
    ensures r.Ok? ==>
      && ParseRawConfig(config).Ok?
      && var c := ParseRawConfig(config).value;
      && VoxelTypeOf(c.typeName).Some?
      && var n := WrappedByteCount(c.dims, VoxelSize(VoxelTypeOf(c.typeName).value));
      && n <= MaxVectorSize && file.Some? && |file.value| >= n
      && r.value.voxelData == Some(file.value[..n])
      && r.value.dims == Some(c.dims)
      && r.value.bounds == Box3(Lift(Origin), Lift(Scale(c.dims, c.spacing)))
      && r.value.brick == StructuredRegular(c.dims, Some(c.spacing), VoxelTypeOf(c.typeName), true)
    ensures ParseRawConfig(config).Ok? && VoxelTypeOf(ParseRawConfig(config).value.typeName).None? ==>
      r == Err(UnrecognizedVoxelType(ParseRawConfig(config).value.typeName))
    ensures ParseRawConfig(config).Err? ==> r == Err(ParseRawConfig(config).error)
  {
    var c :- ParseRawConfig(config);
    var bounds := Box3(Lift(Origin), Lift(Scale(c.dims, c.spacing)));
    match VoxelTypeOf(c.typeName)
    case None => Err(UnrecognizedVoxelType(c.typeName))
    case Some(t) =>
      var n := WrappedByteCount(c.dims, VoxelSize(t));
      if n > MaxVectorSize then Err(VectorTooLarge)
      else if file.None? || |file.value| < n then Err(ReadFailed(c.volume))
      else Ok(VolumeBrick(StructuredRegular(c.dims, Some(c.spacing), Some(t), true),
                         bounds, Some(c.dims), Some(file.value[..n]), None))
  }

  /**
   * The read rule: with a recognised type, the load succeeds exactly when the
   * buffer can be allocated and the file opens and holds at least its size;
   * an oversized buffer fails whatever the file holds, and one byte short
   * fails with the read error.
   */
  lemma RawReadRule(config: map<string, Json>, file: Option<seq<byte>>)
    requires RawConfigPresent(config)
    requires ParseRawConfig(config).Ok? && VoxelTypeOf(ParseRawConfig(config).value.typeName).Some?
    ensures var c := ParseRawConfig(config).value;
      var n := WrappedByteCount(c.dims, VoxelSize(VoxelTypeOf(c.typeName).value));
      && (LoadRawVolume(config, file).Ok? <==> n <= MaxVectorSize && file.Some? && |file.value| >= n)
      && (n > MaxVectorSize ==> LoadRawVolume(config, file) == Err(VectorTooLarge))
      && (n <= MaxVectorSize && (file.None? || |file.value| < n) ==>
            LoadRawVolume(config, file) == Err(ReadFailed(c.volume)))
  {
  }

  /** An unrecognised type string fails the same way whatever the file holds: the file is never read. */
  lemma RawTypeCheckedBeforeRead(config: map<string, Json>, f1: Option<seq<byte>>, f2: Option<seq<byte>>)
    requires RawConfigPresent(config)
    requires ParseRawConfig(config).Ok? && VoxelTypeOf(ParseRawConfig(config).value.typeName).None?
    ensures LoadRawVolume(config, f1) == LoadRawVolume(config, f2)
    ensures LoadRawVolume(config, f1).Err? && LoadRawVolume(config, f1).error.UnrecognizedVoxelType?
  {
  }

  /** A "uint8" configuration of the given size with unit spacing. */
  function RawExampleConfig(x: int, y: int, z: int): (config: map<string, Json>)
    ensures RawConfigPresent(config)
  {
    map["volume" := JString("v.raw"),
        "spacing" := JArray([JNumber(1.0), JNumber(1.0), JNumber(1.0)]),
        "size" := JArray([JNumber(x as real), JNumber(y as real), JNumber(z as real)]),
        "type" := JString("uint8")]
  }

  /**
   * A size with two negative entries is not rejected: the product is
   * positive, so "size": [-2, -3, 4] reads 24 bytes and loads a brick with
   * those negative dims and the inverted bounds [0, (-2, -3, 4)].
   */
  lemma NegativeSizePairLoads(file: seq<byte>)
    requires |file| == 24
    ensures var r := LoadRawVolume(RawExampleConfig(-2, -3, 4), Some(file));
      && r.Ok? && r.value.dims == Some(Int3(-2, -3, 4)) && r.value.voxelData == Some(file)
      && r.value.bounds == Box3(Lift(Origin), Lift(Vec3(-2.0, -3.0, 4.0)))
  {
    var config := RawExampleConfig(-2, -3, 4);
    assert Truncate(-2.0) == -2 && Truncate(-3.0) == -3 && Truncate(4.0) == 4;
    var c := ParseRawConfig(config).value;
    assert c.dims == Int3(-2, -3, 4) && c.spacing == Vec3(1.0, 1.0, 1.0);
    assert WrappedByteCount(c.dims, 1) == 24;
    assert file[..24] == file;
  }

  /**
   * A single negative entry wraps the byte count around to nearly 2^64:
   * "size": [-1, 1, 1] fails the allocation, whatever the file holds.
   */
  lemma NegativeSizeWrapsAround(file: Option<seq<byte>>)
    ensures LoadRawVolume(RawExampleConfig(-1, 1, 1), file) == Err(VectorTooLarge)
  {
    var config := RawExampleConfig(-1, 1, 1);
    assert Truncate(-1.0) == -1 && Truncate(1.0) == 1;
    var c := ParseRawConfig(config).value;
    assert c.dims == Int3(-1, 1, 1);
    assert WrappedByteCount(c.dims, 1) == U64 - 1;
  }

  // ---------------------------------------------------------------------
  // load_idx_volume

  /** The element types an OpenVisus field can report. */
  datatype DType = DUInt8 | DUInt16 | DFloat32 | DFloat64 | DOther

  /**
   * What the full-resolution box query returns: whether it executed, the
   * dataset's logic box upper corner, the buffer's extents, its dtype and
   * its bytes.
   */
  datatype QueryResult = QueryResult(executed: bool, logicBoxUpper: Int3, bufferDims: Int3, dtype: DType, buffer: seq<byte>)

  /** The dtype chain; an unknown dtype is not rejected. */
  function IdxVoxelType(dtype: DType): (r: Option<VoxelType>)
    ensures r.None? <==> dtype == DOther
  {
    match dtype
    case DUInt8 => Some(UChar)
    case DUInt16 => Some(UShort)
    case DFloat32 => Some(Float)
    case DFloat64 => Some(Double)
    case DOther => None
  }

  /** The type name written back into the configuration: "" for an unknown dtype. */
  function IdxTypeName(dtype: DType): (name: string)
    ensures VoxelTypeOf(name) == IdxVoxelType(dtype)
  {
    match IdxVoxelType(dtype)
    case Some(t) => TypeName(t)
    case None => ""
  }

  /** `voxel_size`, which stays 0 for an unknown dtype. */
  function IdxVoxelSize(dtype: DType): (w: nat)
    ensures w == 0 <==> dtype == DOther
    ensures w <= 8
  {
    match IdxVoxelType(dtype)
    case Some(t) => VoxelSize(t)
    case None => 0
  }

  function DimsJson(d: Int3): Json {
    JArray([JNumber(d.x as real), JNumber(d.y as real), JNumber(d.z as real)])
  }

  const UnitSpacingJson := JArray([JNumber(1.0), JNumber(1.0), JNumber(1.0)])

  /** The query's buffer holds at least the bytes the copy reads. */
  predicate QueryWellFormed(q: QueryResult) {
    q.executed ==> NonNegative(q.bufferDims) && |q.buffer| >= ByteCount(q.bufferDims, IdxVoxelSize(q.dtype))
  }

  /**
   * The configuration after a successful IDX load: "dims", "spacing" and
   * "type" are (re)written and nothing else changes. The written type reads
   * back through the voxel-type dispatch as the dtype's voxel type, and as
   * no type at all for an unknown dtype.
   */
  function BackFill(entries: map<string, Json>, q: QueryResult): (r: map<string, Json>)
    ensures r.Keys == entries.Keys + {"dims", "spacing", "type"}
    ensures forall k :: k in entries && k !in {"dims", "spacing", "type"} ==> r[k] == entries[k]
    ensures r["dims"] == DimsJson(q.bufferDims) && r["spacing"] == UnitSpacingJson
    ensures r["type"].JString? && VoxelTypeOf(r["type"].s) == IdxVoxelType(q.dtype)
  {
    entries["dims" := DimsJson(q.bufferDims)]["spacing" := UnitSpacingJson]["type" := JString(IdxTypeName(q.dtype))]
  }

  /**
   * What load_idx_volume returns. Without OpenVisus it throws; a query that
   * does not execute throws; otherwise the brick takes the buffer's extents
   * as dims, the logic box as bounds and the first dims-product * width
   * bytes of the buffer (none for an unknown dtype).
   */
  function IdxLoad(openVisus: bool, q: QueryResult): (r: Result<VolumeBrick, LoadError>)
    requires QueryWellFormed(q)
    ensures !openVisus ==> r == Err(IdxUnsupported)
    ensures openVisus && !q.executed ==> r == Err(QueryFailed)
    ensures r.Ok? <==> openVisus && q.executed
    ensures r.Ok? ==>
      && openVisus && q.executed
      && r.value.dims == Some(q.bufferDims)
      && r.value.bounds == Box3(Lift(Origin), Lift(Vec3(q.logicBoxUpper.x as real, q.logicBoxUpper.y as real, q.logicBoxUpper.z as real)))
      && r.value.voxelData == Some(q.buffer[..ByteCount(q.bufferDims, IdxVoxelSize(q.dtype))])
      && r.value.brick.StructuredRegular? && r.value.brick.voxelType == IdxVoxelType(q.dtype)
    ensures r.Ok? && IdxVoxelType(q.dtype).None? ==> r.value.voxelData == Some([])
  {
    if !openVisus then Err(IdxUnsupported)
    else if !q.executed then Err(QueryFailed)
    else
      var d := q.bufferDims;
      var upper := Vec3(q.logicBoxUpper.x as real, q.logicBoxUpper.y as real, q.logicBoxUpper.z as real);
      var t := IdxVoxelType(q.dtype);
      var n := ByteCount(d, IdxVoxelSize(q.dtype));
      Ok(VolumeBrick(StructuredRegular(d, None, t, t.Some?), Box3(Lift(Origin), Lift(upper)),
                     Some(d), Some(q.buffer[..n]), None))
  }

  /** A JSON object the caller owns and load_idx_volume writes into. */
  class JsonObject {
    var entries: map<string, Json>

    constructor (entries: map<string, Json>)
      ensures this.entries == entries
    {
      this.entries := entries;
    }
  }

  /**
   * `load_idx_volume(idx_file, config)`: the query result and whether the
   * program was built with OpenVisus are parameters. On success the
   * discovered dims, a unit spacing and the type name are written into the
   * caller's configuration; on failure it is left alone.
   */
  method LoadIdxVolume(idxFile: string, openVisus: bool, q: QueryResult, config: JsonObject)
    returns (r: Result<VolumeBrick, LoadError>)
    requires QueryWellFormed(q)
    modifies config
    ensures r == IdxLoad(openVisus, q)
    ensures config.entries == if r.Ok? then BackFill(old(config.entries), q) else old(config.entries)
  {
    if !openVisus {
      return Err(IdxUnsupported);
    }
    if !q.executed {
      return Err(QueryFailed);
    }
    var upper := Vec3(q.logicBoxUpper.x as real, q.logicBoxUpper.y as real, q.logicBoxUpper.z as real);
    var bounds := Box3(Lift(Origin), Lift(upper));
    var dims := q.bufferDims;
    config.entries := config.entries["dims" := DimsJson(dims)];
    config.entries := config.entries["spacing" := UnitSpacingJson];

    var voxelSize := 0;
    var voxelType := "";
    var engineType: Option<VoxelType> := None;
    match q.dtype {
      case DUInt8 => voxelType, voxelSize, engineType := "uint8", 1, Some(UChar);
      case DUInt16 => voxelType, voxelSize, engineType := "uint16", 2, Some(UShort);
      case DFloat32 => voxelType, voxelSize, engineType := "float32", 4, Some(Float);
      case DFloat64 => voxelType, voxelSize, engineType := "float64", 8, Some(Double);
      case DOther =>
    }
    config.entries := config.entries["type" := JString(voxelType)];

    var n := ByteCount(dims, voxelSize);
    var voxelData := q.buffer[..n];
    r := Ok(VolumeBrick(StructuredRegular(dims, None, engineType, engineType.Some?), bounds,
                        Some(dims), Some(voxelData), None));
  }

  /**
   * After a successful IDX load the configuration describes the brick:
   * "dims" are the brick's dims, "spacing" is [1, 1, 1] and "type" names
   * the brick's voxel type (or is "" with an empty buffer).
   */
  lemma IdxBackFillDescribesBrick(entries: map<string, Json>, q: QueryResult)
    requires QueryWellFormed(q) && IdxLoad(true, q).Ok?
    ensures var b := IdxLoad(true, q).value;
      var c := BackFill(entries, q);
      && c["dims"] == DimsJson(b.dims.value)
      && c["spacing"] == UnitSpacingJson
      && VoxelTypeOf(c["type"].s) == b.brick.voxelType
      && (b.brick.voxelType.Some? ==> c["type"] == JString(TypeName(b.brick.voxelType.value)))
      && (b.brick.voxelType.None? ==> c["type"] == JString("") && b.voxelData == Some([]))
  {
  }

  // ---------------------------------------------------------------------
  // extract_isosurfaces

  /** One triangle of the contouring output: its three points and its area. */
  datatype Triangle = Triangle(p0: Vec3, p1: Vec3, p2: Vec3, area: real)

  /** `math::vec3ui` */
  datatype Index3 = Index3(i0: nat, i1: nat, i2: nat)

  /** The geometries handed to the scene: an explicit mesh, or the engine's implicit isosurface. */
  datatype SceneGeometry =
    | Mesh(vertexPosition: seq<Vec3>, index: seq<Index3>)
    | Isosurface(isovalue: seq<real>, volume: EngineVolume)

  /** Selected when the program is built (USE_EXPLICIT_ISOSURFACE). */
  datatype IsoMode = Implicit | Explicit

  /** A count stored into a 32-bit unsigned index. */
  function ToU32(n: nat): (r: nat)
    ensures r < U32 && (n < U32 ==> r == n)
  {
    n % U32
  }

  /** The triangles that survive the filter: those whose area is not exactly 0, in order. */
  function Kept(tris: seq<Triangle>): (k: seq<Triangle>)
    ensures |k| <= |tris|
    ensures forall i :: 0 <= i < |k| ==> k[i].area != 0.0
  {
    if |tris| == 0 then []
    else
      var init := Kept(tris[..|tris| - 1]);
      var t := tris[|tris| - 1];
      if t.area == 0.0 then init else init + [t]
  }

  /** The filter keeps a triangle exactly when it occurs in the input with a non-zero area. */
  lemma {:induction false} KeptMembers(tris: seq<Triangle>, t: Triangle)
    ensures t in Kept(tris) <==> t in tris && t.area != 0.0
  {
    if |tris| > 0 {
      var init := tris[..|tris| - 1];
      KeptMembers(init, t);
      assert tris == init + [tris[|tris| - 1]];
    }
  }

  /** Filtering distributes over concatenation: the kept triangles stay in input order. */
  lemma {:induction false} KeptAppend(a: seq<Triangle>, b: seq<Triangle>)
    ensures Kept(a + b) == Kept(a) + Kept(b)
  {
    if |b| > 0 {
      var n := |b| - 1;
      KeptAppend(a, b[..n]);
      assert (a + b)[..|a + b| - 1] == a + b[..n];
    } else {
      assert a + b == a;
    }
  }

  /** One triangle is kept exactly when its area is not 0. */
  lemma KeptSingle(t: Triangle)
    ensures Kept([t]) == if t.area == 0.0 then [] else [t]
  {
    assert [t][..0] == [];
  }

  function ZeroAreaCount(tris: seq<Triangle>): nat {
    if |tris| == 0 then 0
    else ZeroAreaCount(tris[..|tris| - 1]) + (if tris[|tris| - 1].area == 0.0 then 1 else 0)
  }

  /** Exactly the zero-area triangles are dropped: one degenerate triangle costs one. */
  lemma {:induction false} KeptCount(tris: seq<Triangle>)
    ensures |Kept(tris)| == |tris| - ZeroAreaCount(tris)
  {
    if |tris| > 0 {
      KeptCount(tris[..|tris| - 1]);
    }
  }

  /** Three fresh vertices per kept triangle, in order. */
  function SoupVertices(kept: seq<Triangle>): (v: seq<Vec3>)
    ensures |v| == 3 * |kept|
  {
    if |kept| == 0 then []
    else
      var t := kept[|kept| - 1];
      SoupVertices(kept[..|kept| - 1]) + [t.p0, t.p1, t.p2]
  }

  /** Triangle k of the soup owns vertices 3k, 3k+1 and 3k+2, which are its three points. */
  lemma {:induction false} SoupVerticesAt(kept: seq<Triangle>, k: nat)
    requires k < |kept|
    ensures var v := SoupVertices(kept);
      v[3 * k] == kept[k].p0 && v[3 * k + 1] == kept[k].p1 && v[3 * k + 2] == kept[k].p2
  {
    var init := kept[..|kept| - 1];
    if k < |init| {
      SoupVerticesAt(init, k);
      assert init[k] == kept[k];
    }
  }

  /**
   * Every output vertex is a point of a kept triangle: vertex j belongs to
   * kept triangle j / 3, so a dropped triangle contributes no vertex.
   */
  lemma SoupVertexOwner(kept: seq<Triangle>, j: nat)
    requires j < |SoupVertices(kept)|
    ensures j / 3 < |kept|
    ensures var t := kept[j / 3];
      SoupVertices(kept)[j] == (if j % 3 == 0 then t.p0 else if j % 3 == 1 then t.p1 else t.p2)
  {
    SoupVerticesAt(kept, j / 3);
  }

  /** The index triples: triangle k gets the next three vertex positions, as 32-bit values. */
  function SoupIndices(count: nat): (idx: seq<Index3>)
    ensures |idx| == count
  {
    if count == 0 then []
    else
      var k := count - 1;
      SoupIndices(k) + [Index3(ToU32(3 * k), ToU32(3 * k + 1), ToU32(3 * k + 2))]
  }

  /**
   * The triangle loop of extract_isosurfaces for one isovalue: skips
   * zero-area triangles and gives each kept one three fresh vertices, taking
   * `vertices.size()` (stored in 32 bits) as each new index.
   */
  method AssembleSoup(tris: seq<Triangle>) returns (vertices: seq<Vec3>, indices: seq<Index3>)
    ensures vertices == SoupVertices(Kept(tris)) && indices == SoupIndices(|Kept(tris)|)
    ensures |vertices| == 3 * |indices| && |indices| <= |tris|
  {
    vertices, indices := [], [];
    for i := 0 to |tris|
      invariant vertices == SoupVertices(Kept(tris[..i])) && indices == SoupIndices(|Kept(tris[..i])|)
    {
      SoupLoopStep(tris, i, vertices, indices);
      if tris[i].area == 0.0 {
        continue;
      }
      vertices, indices := PushTriangle(vertices, indices, tris[i]);
    }
    assert tris[..|tris|] == tris;
  }

  /** One turn of the triangle loop keeps the soup equal to the soup of the triangles seen so far. */
  lemma SoupLoopStep(tris: seq<Triangle>, i: nat, vertices: seq<Vec3>, indices: seq<Index3>)
    requires i < |tris|
    requires vertices == SoupVertices(Kept(tris[..i])) && indices == SoupIndices(|Kept(tris[..i])|)
    ensures tris[i].area == 0.0 ==>
      vertices == SoupVertices(Kept(tris[..i + 1])) && indices == SoupIndices(|Kept(tris[..i + 1])|)
    ensures tris[i].area != 0.0 ==>
      && vertices + [tris[i].p0, tris[i].p1, tris[i].p2] == SoupVertices(Kept(tris[..i + 1]))
      && indices + [Index3(ToU32(|vertices|), ToU32(|vertices| + 1), ToU32(|vertices| + 2))]
         == SoupIndices(|Kept(tris[..i + 1])|)
  {
    KeptStep(tris, i);
    if tris[i].area != 0.0 {
      SoupStep(Kept(tris[..i]), tris[i]);
    }
  }

  /** The body for one kept triangle: each point's index is the vertex count before it is pushed. */
  method PushTriangle(vertices: seq<Vec3>, indices: seq<Index3>, tri: Triangle)
    returns (vertices': seq<Vec3>, indices': seq<Index3>)
    ensures vertices' == vertices + [tri.p0, tri.p1, tri.p2]
    ensures indices' == indices + [Index3(ToU32(|vertices|), ToU32(|vertices| + 1), ToU32(|vertices| + 2))]
  {
    vertices' := vertices;
    var t0 := ToU32(|vertices'|);
    vertices' := vertices' + [tri.p0];
    var t1 := ToU32(|vertices'|);
    vertices' := vertices' + [tri.p1];
    var t2 := ToU32(|vertices'|);
    vertices' := vertices' + [tri.p2];
    indices' := indices + [Index3(t0, t1, t2)];
  }

  lemma KeptStep(tris: seq<Triangle>, i: nat)
    requires i < |tris|
    ensures Kept(tris[..i + 1]) == if tris[i].area == 0.0 then Kept(tris[..i]) else Kept(tris[..i]) + [tris[i]]
  {
    assert tris[..i + 1][..i] == tris[..i];
  }

  lemma SoupStep(kept: seq<Triangle>, tri: Triangle)
    ensures SoupVertices(kept + [tri]) == SoupVertices(kept) + [tri.p0, tri.p1, tri.p2]
    ensures var n := |SoupVertices(kept)|;
      SoupIndices(|kept| + 1) == SoupIndices(|kept|) + [Index3(ToU32(n), ToU32(n + 1), ToU32(n + 2))]
  {
    assert (kept + [tri])[..|kept|] == kept;
  }

  /**
   * Triangle k refers to vertices 3k, 3k+1 and 3k+2, stored in 32 bits: below
   * 2^32 vertices the indices are exact.
   */
  lemma {:induction false} SoupIndicesAt(count: nat, k: nat)
    requires k < count
    ensures SoupIndices(count)[k] == Index3(ToU32(3 * k), ToU32(3 * k + 1), ToU32(3 * k + 2))
    ensures 3 * k + 2 < U32 ==> SoupIndices(count)[k] == Index3(3 * k, 3 * k + 1, 3 * k + 2)
  {
    if k < count - 1 {
      SoupIndicesAt(count - 1, k);
    }
  }

  /** One mesh per isovalue whose contour kept at least one triangle, in isovalue order. */
  function ExplicitMeshes(contours: seq<seq<Triangle>>): (meshes: seq<SceneGeometry>)
    ensures |meshes| <= |contours|
  {
    if |contours| == 0 then []
    else
      var init := ExplicitMeshes(contours[..|contours| - 1]);
      var kept := Kept(contours[|contours| - 1]);
      if |kept| == 0 then init else init + [Mesh(SoupVertices(kept), SoupIndices(|kept|))]
  }

  /** The mesh list of a concatenation is the concatenation of the mesh lists: meshes follow isovalue order. */
  lemma {:induction false} ExplicitMeshesAppend(a: seq<seq<Triangle>>, b: seq<seq<Triangle>>)
    ensures ExplicitMeshes(a + b) == ExplicitMeshes(a) + ExplicitMeshes(b)
  {
    if |b| > 0 {
      var n := |b| - 1;
      ExplicitMeshesAppend(a, b[..n]);
      assert (a + b)[..|a + b| - 1] == a + b[..n];
    } else {
      assert a + b == a;
    }
  }

  /** One isovalue yields its own soup as a mesh when it kept a triangle, and nothing otherwise. */
  lemma ExplicitMeshesSingle(c: seq<Triangle>)
    ensures ExplicitMeshes([c]) == if |Kept(c)| == 0 then [] else [Mesh(SoupVertices(Kept(c)), SoupIndices(|Kept(c)|))]
  {
    assert [c][..0] == [];
  }

  function NonEmptyCount(contours: seq<seq<Triangle>>): nat {
    if |contours| == 0 then 0
    else NonEmptyCount(contours[..|contours| - 1]) + (if |Kept(contours[|contours| - 1])| == 0 then 0 else 1)
  }

  /**
   * The result list of explicit extraction: one mesh for each isovalue that
   * produced a triangle (so never more meshes than isovalues), each with at
   * least one triangle and three vertices per index triple.
   */
  lemma {:induction false} ExplicitMeshesShape(contours: seq<seq<Triangle>>)
    ensures |ExplicitMeshes(contours)| == NonEmptyCount(contours) <= |contours|
    ensures forall m :: m in ExplicitMeshes(contours) ==>
      m.Mesh? && |m.index| >= 1 && |m.vertexPosition| == 3 * |m.index|
  {
    if |contours| > 0 {
      ExplicitMeshesShape(contours[..|contours| - 1]);
    }
  }

  /** An isovalue whose contour kept nothing is skipped, not an error: [v1, v2] with v2 empty gives one mesh, v1's. */
  lemma SecondIsovalueEmpty(c1: seq<Triangle>, c2: seq<Triangle>)
    requires |Kept(c1)| > 0 && |Kept(c2)| == 0
    ensures ExplicitMeshes([c1, c2]) == [Mesh(SoupVertices(Kept(c1)), SoupIndices(|Kept(c1)|))]
  {
    var kept := Kept(c1);
    assert [c1, c2][..1] == [c1];
    assert [c1][..0] == [];
    assert ExplicitMeshes([c1, c2]) == ExplicitMeshes([c1]);
    assert ExplicitMeshes([c1]) == [] + [Mesh(SoupVertices(kept), SoupIndices(|kept|))];
  }

  /** The isovalue loop. */
  method AssembleMeshes(contours: seq<seq<Triangle>>) returns (meshes: seq<SceneGeometry>)
    ensures meshes == ExplicitMeshes(contours)
  {
    meshes := [];
    for i := 0 to |contours|
      invariant meshes == ExplicitMeshes(contours[..i])
    {
      assert contours[..i + 1][..i] == contours[..i];
      var vertices, indices := AssembleSoup(contours[i]);
      if |indices| > 0 {
        meshes := meshes + [Mesh(vertices, indices)];
      }
    }
    assert contours[..|contours|] == contours;
  }

  /** Explicit mode reads the type and the spacing from the configuration. */
  predicate ExplicitConfigPresent(config: map<string, Json>) {
    "type" in config && "spacing" in config && (config["spacing"].JArray? ==> |config["spacing"].items| >= 3)
  }

  /**
   * What extract_isosurfaces returns. Implicit: one descriptor carrying all
   * isovalues and the brick's volume. Explicit: the type string must be one
   * of the four (checked before any contouring), the spacing must read, and
   * then one mesh per isovalue that kept a triangle.
   */
  function Extraction(mode: IsoMode, config: map<string, Json>, brick: VolumeBrick,
                      isovalues: seq<real>, contours: seq<seq<Triangle>>): (r: Result<seq<SceneGeometry>, LoadError>)
    requires mode == Explicit ==> ExplicitConfigPresent(config)
    ensures mode == Implicit ==> r == Ok([Isosurface(isovalues, brick.brick)])
    ensures mode == Explicit ==>
      (r.Ok? <==> config["type"].JString? && VoxelTypeOf(config["type"].s).Some? && Vec(config["spacing"], 3, GetReal).Ok?)
    ensures mode == Explicit && r.Ok? ==> r.value == ExplicitMeshes(contours)
    ensures mode == Explicit && !config["type"].JString? ==> r == Err(JsonTypeError)
    ensures mode == Explicit && config["type"].JString? && VoxelTypeOf(config["type"].s).None? ==>
      r == Err(UnrecognizedVoxelType(config["type"].s))
  {
    match mode
    case Implicit => Ok([Isosurface(isovalues, brick.brick)])
    case Explicit =>
      var typeName :- GetString(config["type"]);
      if VoxelTypeOf(typeName).None? then Err(UnrecognizedVoxelType(typeName))
      else
        var spacing :- Vec(config["spacing"], 3, GetReal);
        Ok(ExplicitMeshes(contours))
  }

  /**
   * `extract_isosurfaces(config, brick, isovalues)`. The contouring filter is
   * outside the model: `contours[i]` is its output for `isovalues[i]`.
   */
  method ExtractIsosurfaces(mode: IsoMode, config: map<string, Json>, brick: VolumeBrick,
                            isovalues: seq<real>, contours: seq<seq<Triangle>>)
    returns (r: Result<seq<SceneGeometry>, LoadError>)
    requires mode == Explicit ==> ExplicitConfigPresent(config) && |contours| == |isovalues|
    ensures r == Extraction(mode, config, brick, isovalues, contours)
    ensures r.Ok? ==> |r.value| <= |isovalues| || (mode == Implicit && |r.value| == 1)
  {
    if mode == Implicit {
      return Ok([Isosurface(isovalues, brick.brick)]);
    }
    var typeName := GetString(config["type"]);
    if typeName.Err? {
      return Err(typeName.error);
    }
    if VoxelTypeOf(typeName.value).None? {
      return Err(UnrecognizedVoxelType(typeName.value));
    }
    var spacing := GetVec(config["spacing"], 3, GetReal);
    if spacing.Err? {
      return Err(spacing.error);
    }
    var meshes := AssembleMeshes(contours);
    ExplicitMeshesShape(contours);
    r := Ok(meshes);
  }

  /**
   * An IDX dataset of unknown dtype back-fills the type "", which the
   * explicit extractor then rejects.
   */
  lemma IdxUnknownDtypeBlocksExplicit(entries: map<string, Json>, q: QueryResult, brick: VolumeBrick,
                                      isovalues: seq<real>, contours: seq<seq<Triangle>>)
    requires IdxVoxelType(q.dtype).None?
    ensures ExplicitConfigPresent(BackFill(entries, q))
    ensures Extraction(Explicit, BackFill(entries, q), brick, isovalues, contours) == Err(UnrecognizedVoxelType(""))
  {
  }
}
