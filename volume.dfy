/**
 * The loaded brick (volume_data.h) and the voxel-type dispatch shared by the
 * loaders: the type names of the configuration, their engine data types and
 * their widths in bytes.
 */
module Volume {
  import opened Wrappers
  import opened Geometry

  newtype byte = x: int | 0 <= x < 256

  /** 2^32: the range of a `uint32_t`. */
  const U32: nat := 0x1_0000_0000

  /** 2^64: the range of a `size_t`, whose arithmetic wraps around modulo this. */
  const U64: nat := 0x1_0000_0000_0000_0000

  /** The four voxel types, named after the OSPRay data type each one is given as. */
  datatype VoxelType = UChar | UShort | Float | Double

  /** The type string of the configuration: "uint8", "uint16", "float32" or "float64". */
  function TypeName(t: VoxelType): string {
    match t
    case UChar => "uint8"
    case UShort => "uint16"
    case Float => "float32"
    case Double => "float64"
  }

  /** The if/else chain on the type string; None where the source throws. */
  function VoxelTypeOf(name: string): (r: Option<VoxelType>)
    ensures r.Some? <==> name in {"uint8", "uint16", "float32", "float64"}
  {
    if name == "uint8" then Some(UChar)
    else if name == "uint16" then Some(UShort)
    else if name == "float32" then Some(Float)
    else if name == "float64" then Some(Double)
    else None
  }

  /** `voxel_size`: bytes per voxel. */
  function VoxelSize(t: VoxelType): (w: nat)
    ensures w in {1, 2, 4, 8}
  {
    match t
    case UChar => 1
    case UShort => 2
    case Float => 4
    case Double => 8
  }

  /** The type names and the dispatch are inverse to each other, in both directions. */
  lemma TypeNameRoundTrip(t: VoxelType, name: string)
    ensures VoxelTypeOf(TypeName(t)) == Some(t)
    ensures VoxelTypeOf(name) == Some(t) ==> TypeName(t) == name
  {
  }

  /** uint8 is 1 byte, uint16 is 2, float32 is 4, float64 is 8. */
  lemma VoxelWidths()
    ensures VoxelSize(VoxelTypeOf("uint8").value) == 1
    ensures VoxelSize(VoxelTypeOf("uint16").value) == 2
    ensures VoxelSize(VoxelTypeOf("float32").value) == 4
    ensures VoxelSize(VoxelTypeOf("float64").value) == 8
  {
  }

  /** The parameters the loaders set on the engine-side volume (the handle itself is opaque). */
  datatype EngineVolume =
    | StructuredRegular(dimensions: Int3, gridSpacing: Option<Vec3>, voxelType: Option<VoxelType>,
                        sharesVoxelData: bool)
    | Unstructured(vertexPosition: seq<Vec3>, index: seq<nat>, cellIndex: seq<nat>,
                   cellType: seq<nat>, vertexData: seq<real>)

  /**
   * `VolumeBrick` of volume_data.h. A field a loader leaves unset is None:
   * the structured loaders do not fill `valueRange`, the mesh loader neither
   * `dims` nor `voxelData`.
   */
  datatype VolumeBrick = VolumeBrick(
    brick: EngineVolume,
    bounds: Box3,
    dims: Option<Int3>,
    voxelData: Option<seq<byte>>,
    valueRange: Option<(Ext, Ext)>)
}
