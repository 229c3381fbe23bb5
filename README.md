# mini-osp-vis loaders, in Dafny

This project models the data-loading core of mini-osp-vis, a small OSPRay
volume viewer:

- the path and string helpers of `util/util.cpp`: file extension, basename
  and base path, and `starts_with`;
- `get_vec` and `compute_value_range` of `util/util.h`;
- `load_off` (`load_off.cpp`), which reads a tetrahedral mesh with one
  scalar per vertex. It repairs each tetrahedron's winding and builds the
  arrays of an unstructured volume, its value range and its bounds;
- the three entry points of `loader.cpp`:
  - `load_raw_volume`: the voxel-type dispatch and the sizing of the raw
    buffer;
  - `load_idx_volume`: the dtype mapping and the write-back into the
    caller's configuration;
  - `extract_isosurfaces`: degenerate-triangle filtering, the triangle-soup
    assembly and the rules for the result list, in both build modes.

Modules, one per concern:

| file | module | models |
|---|---|---|
| `wrappers.dfy` | `Wrappers` | `Option`, `Result` and the error cases the loaders throw |
| `geometry.dfy` | `Geometry` | `vec3f`/`vec3i`, cross and dot products, `box3f` with ±infinity corners |
| `json.dfy` | `JsonConfig` | the JSON values read from a configuration, typed getters, `get_vec` |
| `path_util.dfy` | `PathUtil` | `util/util.cpp` |
| `value_range.dfy` | `ValueRange` | `compute_value_range`: a sequential fold, plus a description of TBB's possible splits |
| `volume.dfy` | `Volume` | the voxel types, their names and widths, and the `VolumeBrick` record of `volume_data.h` |
| `load_off.dfy` | `LoadOff` | `load_off`, with the input file as a sequence of numeric tokens |
| `loader.dfy` | `Loader` | `load_raw_volume`, `load_idx_volume`, `extract_isosurfaces` |

Numbers are exact (`real`, `int`). A float that the source seeds with
±infinity is an `Ext` (`NegInf | Fin(v) | PosInf`). A default-constructed
`box3f` is `EmptyBox`, with its lower corner at +infinity and its upper
corner at -infinity. The loaders' exceptions are `Err` values of `LoadError`.

Foreign results become parameters of the model:
- the raw file's content (`None` when the file cannot be opened);
- the IDX box query's result, and whether OpenVisus is compiled in;
- the VTK contouring output for each isovalue;
- the build switch `USE_EXPLICIT_ISOSURFACE`, as `IsoMode`.

The OSPRay objects are recorded as the parameters set on them:
`EngineVolume`, `SceneGeometry`.

The operations that work step by step are methods with loop invariants,
each proved equal to a specification function:
- `GetVec` fills a fixed-size array;
- `ReadVertices` and `ReadTets` are the two loops of `load_off`;
- `AssembleSoup` and `AssembleMeshes` are the two loops of
  `extract_isosurfaces`.

`LoadIdxVolume` writes into a caller-owned `JsonObject`, as the source
writes into its `json &config` argument.

## Model

| member | source | states |
|---|---|---|
| PathUtil.FindLast | util/util.cpp:25 | `find_last_of`: no position exactly when the character is absent; otherwise the position holds it and nothing after it does |
| PathUtil.FileExtension | util/util.cpp:23-30 | `""` when the name has no `.`; otherwise the extension has no `.` and the name is stem + `.` + extension |
| PathUtil.FileBasename | util/util.cpp:32-39 | the whole path when it has no `/`; otherwise a suffix of the path without `/` |
| PathUtil.FileBasepath | util/util.cpp:41-48 | the whole path (not `"."`) when it has no `/`; otherwise the prefix before the last `/` |
| PathUtil.BasepathBasenameRoundTrip | util/util.cpp:32-48 | for a path with a `/`: base path + `/` + basename is the path again |
| PathUtil.StrnEqual | util/util.cpp:52 | `strncmp` over positions i..n: a differing character at i is a mismatch, and a NUL reached in both strings ends the comparison as a match |
| PathUtil.StartsWith | util/util.cpp:50-53 | the empty prefix always matches, and a first character that differs never does |
| PathUtil.StrnEqualIsSliceEqual | util/util.cpp:52 | for NUL-free strings, `strncmp` from position i matches exactly when the remaining prefix characters are equal |
| PathUtil.StartsWithIsPrefix | util/util.cpp:50-53 | for NUL-free strings, `starts_with` holds iff the prefix is no longer than the string and equals its first characters |
| PathUtil.StartsWithStopsAtNul | util/util.cpp:52 | `strncmp` stops at a NUL: `"a"` starts with `"a\0b"` |
| JsonConfig.GetString | loader.cpp:33 | `get<std::string>` succeeds exactly on strings and returns that string |
| JsonConfig.GetReal | util/util.h:29 | `get<float>` succeeds exactly on numbers and booleans; a number is returned as is, `true`/`false` as 1/0 |
| JsonConfig.Truncate | util/util.h:29 | conversion to `int` truncates toward zero, from either side |
| JsonConfig.GetInt | util/util.h:29 | `get<int>` succeeds exactly on numbers and booleans; a number is truncated toward zero, `true`/`false` give 1/0 |
| JsonConfig.ConvertAll | util/util.h:28-30 | converting entries in order succeeds iff every entry converts, and entry i of the result is the conversion of entry i |
| JsonConfig.ConvertAllFirstError | util/util.h:28-30 | the error raised is the first failing entry's |
| JsonConfig.GetVec | util/util.h:24-32 | the filled vector equals `Vec`; it succeeds iff the value is an array whose first N entries convert, and component i is `j[i]` converted |
| ValueRange.Reduce | util/util.h:38-52 | the fold's result is no worse than the seed and every element, and is the seed or an element |
| ValueRange.ReduceUnique | util/util.h:38-52 | a value that bounds the seed and the elements and is one of them is the fold's result |
| ValueRange.ReduceSplit | util/util.h:44 | combining the results of two adjacent pieces equals the fold over both |
| ValueRange.FoldFromResult | util/util.h:40-43 | continuing a fold from its own result is the fold over the concatenation |
| ValueRange.ReducePermutation | util/util.h:38-52 | the fold does not depend on the order of the elements |
| ValueRange.BodyIsFold | util/util.h:40-43 | the body lambda (`min_element` of a chunk, then `min` with the accumulator) is the fold of the chunk from the accumulator |
| ValueRange.RunPlan | util/util.h:38-52 | the TBB body and join over a plan of chunks: the result is never worse than the identity it is seeded with |
| ValueRange.RunPlanIsFold | util/util.h:38-52 | any way of cutting the range into chunks and joining the results (re-seeding each chunk with `vals[0]`) gives the sequential fold |
| ValueRange.ComputeValueRange | util/util.h:34-54 | for a non-empty buffer, min ≤ every value ≤ max, both are attained, and a one-element buffer gives (v, v) |
| ValueRange.ParallelValueRange | util/util.h:38-53 | the two parallel reductions, whatever their splits, give `ComputeValueRange` |
| ValueRange.ValueRangeOrderIndependent | util/util.h:34-54 | shuffling the buffer does not change the range |
| Volume.VoxelTypeOf | loader.cpp:43-58 | a type string is recognised exactly when it is one of `uint8`, `uint16`, `float32`, `float64` |
| Volume.TypeNameRoundTrip | loader.cpp:120-140 | the type names and the dispatch are inverse to each other |
| Volume.VoxelSize | loader.cpp:44-55 | every voxel width is 1, 2, 4 or 8 bytes |
| Volume.VoxelWidths | loader.cpp:44-55 | `uint8` is 1 byte, `uint16` 2, `float32` 4, `float64` 8 |
| Geometry.CrossAntiCommutes | load_off.cpp:62 | swapping the arguments of the cross product negates it |
| Geometry.TripleProductSwap | load_off.cpp:62-64 | exchanging b and c negates `dot(cross(b - a, c - a), d - a)` |
| Geometry.ExtMin | load_off.cpp:43 | `std::min` returns one of its arguments and is below both |
| Geometry.ExtMax | load_off.cpp:44 | `std::max` returns one of its arguments and is above both |
| Geometry.Extend | load_off.cpp:46 | the extended box contains the new point and the old box, and each corner component is the old one or the point's: the componentwise min (lower) and max (upper) |
| Geometry.ExtendKeeps | load_off.cpp:46 | extending keeps every point the box already contained |
| LoadOff.RawTet | load_off.cpp:54-55 | tetrahedron record i, whose indices name existing vertices |
| LoadOff.FixWinding | load_off.cpp:62-68 | a and d stay, b and c are the same pair, the result is not inverted, and a tetrahedron that was not inverted (flat ones included) is unchanged |
| LoadOff.FixWindingSwapsIffInverted | load_off.cpp:64-68 | b and c are exchanged exactly when the orientation is strictly negative |
| LoadOff.FixWindingIdempotent | load_off.cpp:62-68 | repairing a repaired tetrahedron changes nothing |
| LoadOff.MirrorRepaired | load_off.cpp:62-68 | the mirror image of a positively oriented tetrahedron has the opposite orientation and is repaired back to it |
| LoadOff.FixWindingAsWritten | load_off.cpp:64-68 | the source's swap: a and d stay; an inverted tetrahedron gets b := c and c := b modulo 2^32 (the `uint32_t` temporary); any other one is unchanged |
| LoadOff.AsWrittenAgreesBelow32Bits | load_off.cpp:65-67 | while b fits in 32 bits, the swap through `uint32_t` agrees with the full-width swap |
| LoadOff.AsWrittenTruncatesSwappedIndex | load_off.cpp:65-67 | an inverted tetrahedron with b ≥ 2^32 gets c = b mod 2^32, a different vertex |
| LoadOff.FixedTets | load_off.cpp:53-68 | n_tets repaired tetrahedra, all referencing existing vertices |
| LoadOff.Flatten | load_off.cpp:69-72 | four indices per tetrahedron |
| LoadOff.FlattenAt | load_off.cpp:69-72 | index group i of the flattened array is tetrahedron i's four indices |
| LoadOff.CellOffsets | load_off.cpp:73-74 | n offsets, offset i being 4·i |
| LoadOff.ScalarRange | load_off.cpp:34-44 | (+inf, -inf) with no scalars; otherwise two finite values, min ≤ max |
| LoadOff.ScalarRangeIsFold | load_off.cpp:43-44 | the running min/max from (+inf, -inf) equals the folds seeded with the first scalar |
| LoadOff.ScalarRangeIsValueRange | load_off.cpp:34-44 | with no vertices the range stays (+inf, -inf); otherwise it is `compute_value_range` of the scalars and bounds every scalar |
| LoadOff.BoundsOf | load_off.cpp:46 | the empty box with no vertices; otherwise lower ≤ upper on every axis |
| LoadOff.BoundsContainAll | load_off.cpp:46 | the bounds contain every vertex position |
| LoadOff.BoundsAxis | load_off.cpp:36-46 | on each axis, the box's lower and upper corner are the running min/max of that coordinate from (+inf, -inf) |
| LoadOff.BoundsIsValueRange | load_off.cpp:36-46 | with no vertices the bounds are the empty box; otherwise on each axis they are exactly `compute_value_range` of that coordinate over all vertices |
| LoadOff.ReadVertices | load_off.cpp:36-47 | the first loop yields the positions and scalars in input order, their running range and their bounds |
| LoadOff.RepairWinding | load_off.cpp:62-68 | the swap through a temporary produces `FixWinding` of the record |
| LoadOff.ReadTets | load_off.cpp:52-75 | the second loop yields the flattened repaired tetrahedra and the offsets 0, 4, 8, … |
| LoadOff.LoadOffMesh | load_off.cpp:13-87 | `load_off` returns `OffBrick` of the token stream |
| LoadOff.OffBrick | load_off.cpp:13-87 | the brick `load_off` builds: an unstructured volume with n_verts positions and scalars, 4·n_tets indices, n_tets offsets and cell types, no dims or voxel buffer, bounds of the positions and the running range of the scalars |
| LoadOff.OffBrickVertices | load_off.cpp:36-41 | n_verts positions and n_verts scalars, index-aligned with the vertex records |
| LoadOff.OffBrickCells | load_off.cpp:49-74 | 4·n_tets indices, n_tets offsets equal to 4·i, n_tets tetrahedron cell types |
| LoadOff.OffBrickIndexGroups | load_off.cpp:53-72 | index group i is tetrahedron record i after the winding fix |
| LoadOff.OffBrickOriented | load_off.cpp:58-72 | every emitted tetrahedron references existing vertices and is not inverted |
| LoadOff.OffBrickRangeAndBounds | load_off.cpp:34-47 | the value range bounds every scalar (and is (+inf, -inf) with no vertices); the bounds contain every vertex |
| LoadOff.OffIgnoresTrailingTokens | load_off.cpp:19-55 | exactly the header, n_verts vertex records and n_tets tetrahedron records are consumed |
| LoadOff.UnitTetRange | load_off.cpp:34-44 | scalars 0, 1, 2, 3 give the range [0, 3] |
| Loader.ByteCount | loader.cpp:142-143 | the IDX buffer size is 0 exactly when a dimension or the width is 0 |
| Loader.ParseRawConfig | loader.cpp:33-43 | succeeds exactly when "volume" and "type" are strings and the first three "spacing" and "size" entries convert; the file name and type are those strings, the spacing is `get<float>` and the dims `get<int>` of those entries, unchecked for sign |
| Loader.WrappedByteCount | loader.cpp:60-61 | the buffer size is below 2^64 and equals dims.x·dims.y·dims.z·width whenever the dims are non-negative and that fits in `size_t` |
| Loader.LoadRawVolume | loader.cpp:29-86 | on success: the configuration parsed, the type was recognised, the wrapped byte count fits a vector, the file holds at least that many bytes, the buffer is its prefix of that length, dims are the parsed size and the bounds [0, dims·spacing]; an unrecognised type fails with that name; a malformed configuration fails with its error |
| Loader.RawReadRule | loader.cpp:56-67 | with a recognised type, the load succeeds iff the wrapped byte count fits a vector and the file opens and holds at least that many bytes; an oversized count fails the allocation whatever the file; otherwise a file that cannot be opened or is short fails with the read error naming it |
| Loader.NegativeSizePairLoads | loader.cpp:35-67 | "size" [-2, -3, 4] is not rejected: 24 bytes are read and the brick has those dims and the inverted bounds [0, (-2, -3, 4)] |
| Loader.NegativeSizeWrapsAround | loader.cpp:60-61 | "size" [-1, 1, 1] wraps the byte count to 2^64 - 1, which fails the allocation whatever the file holds |
| Loader.RawTypeCheckedBeforeRead | loader.cpp:56-63 | an unrecognised type fails identically whatever the file holds |
| Loader.IdxVoxelType | loader.cpp:120-139 | the dtype chain gives a voxel type for every dtype except an unknown one |
| Loader.IdxTypeName | loader.cpp:121-140 | the type name written back reads back through the voxel-type dispatch as the dtype's voxel type ("" for an unknown dtype reads as none) |
| Loader.IdxVoxelSize | loader.cpp:120-139 | the voxel size is 0 exactly for an unknown dtype, and at most 8 |
| Loader.BackFill | loader.cpp:114-140 | "dims", "spacing", "type" are written and no other key changes; the written type reads back as the dtype's voxel type, or as none |
| Loader.IdxLoad | loader.cpp:88-168 | succeeds exactly when OpenVisus is present and the query executes; without OpenVisus it fails with that error, a failed query with its own; on success dims are the buffer's, bounds the logic box, data the dims-product·width prefix of the buffer (empty for an unknown dtype) |
| Loader.LoadIdxVolume | loader.cpp:88-168 | returns `IdxLoad`, and the configuration becomes `BackFill` of the old one on success and stays unchanged on failure |
| Loader.IdxBackFillDescribesBrick | loader.cpp:112-143 | after a load the configuration's dims are the brick's dims, the spacing is [1,1,1], the type names the brick's voxel type, or is "" with an empty buffer |
| Loader.IdxUnknownDtypeBlocksExplicit | loader.cpp:120-202 | an unknown dtype back-fills type "", which explicit extraction rejects |
| Loader.ToU32 | loader.cpp:233 | a count stored as a 32-bit index is below 2^32 and exact when it fits |
| Loader.Kept | loader.cpp:224-228 | no more triangles than the input, none of them with zero area |
| Loader.KeptMembers | loader.cpp:224-228 | a triangle is kept exactly when it occurs in the input with non-zero area |
| Loader.KeptCount | loader.cpp:226-228 | exactly the zero-area triangles are dropped |
| Loader.KeptAppend | loader.cpp:224-228 | filtering a concatenation is the concatenation of the filtered parts: the kept triangles keep their input order and multiplicity |
| Loader.KeptSingle | loader.cpp:226-228 | a single triangle is kept exactly when its area is not 0 |
| Loader.SoupVertices | loader.cpp:229-235 | three vertices per kept triangle |
| Loader.SoupVerticesAt | loader.cpp:229-235 | vertices 3k, 3k+1, 3k+2 are the points of kept triangle k |
| Loader.SoupVertexOwner | loader.cpp:229-236 | every output vertex is a point of a kept triangle, so a dropped triangle contributes none |
| Loader.SoupIndices | loader.cpp:233-236 | one index triple per kept triangle |
| Loader.SoupIndicesAt | loader.cpp:229-236 | triple k is (3k, 3k+1, 3k+2) modulo 2^32, exactly that below 2^32 |
| Loader.PushTriangle | loader.cpp:229-236 | each point's index is the vertex count before it is pushed |
| Loader.AssembleSoup | loader.cpp:220-237 | the loop yields the soup of the kept triangles, with three vertices per index triple |
| Loader.ExplicitMeshes | loader.cpp:211-248 | no more meshes than isovalues |
| Loader.ExplicitMeshesAppend | loader.cpp:211-248 | the meshes of a concatenation of contours are the meshes of each part, in isovalue order |
| Loader.ExplicitMeshesSingle | loader.cpp:220-247 | one isovalue gives its own soup as a mesh when it kept a triangle, and nothing otherwise |
| Loader.ExplicitMeshesShape | loader.cpp:211-248 | one mesh per isovalue that kept a triangle, never more meshes than isovalues, each mesh non-empty with three vertices per triangle |
| Loader.SecondIsovalueEmpty | loader.cpp:238-247 | isovalues [v1, v2] with v2 empty give exactly v1's mesh, not an error |
| Loader.AssembleMeshes | loader.cpp:211-248 | the isovalue loop yields `ExplicitMeshes` of the contours |
| Loader.Extraction | loader.cpp:170-257 | implicit: one descriptor with all isovalues and the volume; explicit: succeeds exactly when "type" is a recognised type string and "spacing" reads, returning `ExplicitMeshes` (an isovalue with no triangles is skipped, never an error); a non-string type is a JSON type error, an unrecognised one fails with its name |
| Loader.ExtractIsosurfaces | loader.cpp:170-257 | returns `Extraction`, and on success no more geometries than isovalues, or the single implicit one |

## Left out

- Input and output: reading files, `get_file_content` (util/util.cpp:13-21), `fetch_scivis.py` and all of `main.cpp`. The viewer's type→`compute_value_range` dispatch only repeats the width mapping of `Volume`.
- OSPRay objects (`cpp::Volume`, `VolumetricModel`, `SharedData`/`CopiedData`, `commit`): `EngineVolume` and `SceneGeometry` record which parameters are set, not the handles. The `model` field of `VolumeBrick` is not modelled.
- OpenVisus (`LoadDataset`, `BoxQuery`, `executeQuery`, `memcpy`): the query's outcome is the `QueryResult` parameter. The requested resolution range is not modelled.
- VTK contouring and `vtkTriangle::ComputeArea`: each isovalue's triangles, with their areas, are given as `contours`. The cast of each cell to a triangle is assumed to succeed.
- TBB: `compute_value_range` is a sequential fold. The parallel schedule is an explicit `Plan` of chunks and joins, proved to give the same result; concurrency itself is not modelled.
- Floating point: the orientation test, `dims * spacing`, the `float` value range, float rounding in JSON conversions, NaN and infinite inputs all use exact arithmetic.
- Reinterpreting the voxel buffer as `uint16_t`/`float`/`double`, and native byte order: the buffer stays a byte sequence plus a width.
- Loader.LoadRawVolume: requires the four configuration keys (indexing a missing key of a const `json` is undefined) and at least three entries in the "spacing" and "size" arrays. The allocation fails only past `max_size()`; running out of memory below that is not modelled. The byte count is the signed 64-bit `long_product()` of the dims, its overflow taken as wrap-around, converted to `size_t` and multiplied by the width; that is, the exact product modulo 2^64. A "size" entry outside the `int` range (undefined in the conversion) is not modelled. The zero-filling of the buffer before the read is not observable and not modelled.
- JsonConfig.GetVec: requires at least N entries when the value is an array, because reading past the end of a const JSON array is undefined. JSON objects appear only as the top-level configuration; a nested object is treated like `null` (a type error for every getter), and integer and floating JSON numbers are one exact number.
- LoadOff.LoadOffMesh: requires a well-formed token stream with every vertex index below n_verts, because `load_off` checks neither stream errors nor indices. The load is modelled with the corrected full-width swap (`FixWinding`); the `uint32_t` temporary of the source is modelled separately under "## Findings". The 64-bit wrap-around of the cell offset counter is not modelled.
- Loader.LoadIdxVolume: requires the query buffer to hold the bytes that are copied. The `size_t` overflow of the byte count is not modelled.
- Loader.ExtractIsosurfaces: the image set-up from the brick (dimensions, spacing, origin) goes to VTK only and is not modelled. Only the reading of "spacing" and its failure are kept.
- The header files (`loader.h`, `load_off.h`) only declare functions. `VolumeBrick` follows `volume_data.h`, and `extract_isosurfaces` follows its definition in `loader.cpp`, which takes a list of isovalues.

## Findings

| source | as written | input that shows it | evidently intended | confidence | as-written member | corrected member |
|---|---|---|---|---|---|---|
| load_off.cpp:65 | the b/c swap goes through `uint32_t temp = b`, so c receives b modulo 2^32 | a mesh with more than 2^32 vertices and an inverted tetrahedron whose b index is 2^32 | c receives b unchanged, as the `uint64_t` indices allow | medium, not executed | LoadOff.AsWrittenTruncatesSwappedIndex | LoadOff.FixWinding |
