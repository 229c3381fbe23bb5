/**
 * `load_off` of load_off.cpp: reads a tetrahedral mesh from a whitespace
 * separated token stream, "n_verts n_tets", then "x y z s" per vertex, then
 * "a b c d" per tetrahedron, repairs each tetrahedron's winding and produces
 * the arrays of an unstructured OSPRay volume.
 */
module LoadOff {
  import opened Wrappers
  import opened Geometry
  import opened Volume
  import ValueRange

  /** OSPRay's cell-type tag for a tetrahedron (OSP_TETRAHEDRON). */
  const TetrahedronCell: nat := 10

  /** A token that reads as an unsigned integer. */
  predicate IsCount(t: real) {
    t >= 0.0 && t.Floor as real == t
  }

  function Count(t: real): nat
    requires IsCount(t)
  {
    t.Floor
  }

  /** Where the tetrahedron records start: after the header and n_verts vertex records. */
  function TetBase(nVerts: nat): nat {
    2 + 4 * nVerts
  }

  /**
   * The stream holds the header, n_verts vertex records and n_tets
   * tetrahedron records, and every vertex index is below n_verts. The source
   * checks none of this: a short stream is not detected and an index is used
   * unchecked.
   */
  predicate WellFormed(tokens: seq<real>) {
    && |tokens| >= 2 && IsCount(tokens[0]) && IsCount(tokens[1])
    && |tokens| >= TetBase(Count(tokens[0])) + 4 * Count(tokens[1])
    && forall k :: TetBase(Count(tokens[0])) <= k < TetBase(Count(tokens[0])) + 4 * Count(tokens[1]) ==>
         IsCount(tokens[k]) && Count(tokens[k]) < Count(tokens[0])
  }

  function NVerts(tokens: seq<real>): nat
    requires WellFormed(tokens)
  {
    Count(tokens[0])
  }

  function NTets(tokens: seq<real>): nat
    requires WellFormed(tokens)
  {
    Count(tokens[1])
  }

  /** The end of what load_off consumes. */
  function End(tokens: seq<real>): nat
    requires WellFormed(tokens)
  {
    TetBase(NVerts(tokens)) + 4 * NTets(tokens)
  }

  function VertexAt(tokens: seq<real>, i: nat): Vec3
    requires 2 + 4 * i + 3 < |tokens|
  {
    Vec3(tokens[2 + 4 * i], tokens[2 + 4 * i + 1], tokens[2 + 4 * i + 2])
  }

  function ScalarAt(tokens: seq<real>, i: nat): real
    requires 2 + 4 * i + 3 < |tokens|
  {
    tokens[2 + 4 * i + 3]
  }

  /** The vertex positions, in input order. */
  function Positions(tokens: seq<real>): (pos: seq<Vec3>)
    requires WellFormed(tokens)
  {
    seq(NVerts(tokens), i requires 0 <= i < NVerts(tokens) => VertexAt(tokens, i))
  }

  /** The vertex scalars, index-aligned with the positions. */
  function Scalars(tokens: seq<real>): seq<real>
    requires WellFormed(tokens)
  {
    seq(NVerts(tokens), i requires 0 <= i < NVerts(tokens) => ScalarAt(tokens, i))
  }

  datatype Tet = Tet(a: nat, b: nat, c: nat, d: nat)

  /** The i-th tetrahedron record as read. */
  function RawTet(tokens: seq<real>, i: nat): (t: Tet)
    requires WellFormed(tokens) && i < NTets(tokens)
    ensures InRange(Positions(tokens), t)
  {
    var k := TetBase(NVerts(tokens)) + 4 * i;
    Tet(Count(tokens[k]), Count(tokens[k + 1]), Count(tokens[k + 2]), Count(tokens[k + 3]))
  }

  predicate InRange(pos: seq<Vec3>, t: Tet) {
    t.a < |pos| && t.b < |pos| && t.c < |pos| && t.d < |pos|
  }

  /** `dot(cross(b - a, c - a), d - a)`, computed exactly. */
  function Orientation(pos: seq<Vec3>, t: Tet): real
    requires InRange(pos, t)
  {
    TripleProduct(pos[t.a], pos[t.b], pos[t.c], pos[t.d])
  }

  /**
   * The winding fix, with a full-width temporary: b and c trade places when
   * the tetrahedron is inverted. Afterwards it is never inverted, references
   * the same four vertices, and a tetrahedron that was not inverted
   * (including a flat one) is left as read.
   */
  function FixWinding(pos: seq<Vec3>, t: Tet): (r: Tet)
    requires InRange(pos, t)
    ensures InRange(pos, r)
    ensures r.a == t.a && r.d == t.d && multiset{r.b, r.c} == multiset{t.b, t.c}
    ensures Orientation(pos, r) >= 0.0
    ensures Orientation(pos, t) >= 0.0 ==> r == t
  {
    if Orientation(pos, t) < 0.0 then
      TripleProductSwap(pos[t.a], pos[t.b], pos[t.c], pos[t.d]);
      Tet(t.a, t.c, t.b, t.d)
    else t
  }

  /** b and c are exchanged exactly when the tetrahedron is inverted; a and d never move. */
  lemma FixWindingSwapsIffInverted(pos: seq<Vec3>, t: Tet)
    requires InRange(pos, t)
    ensures Orientation(pos, t) < 0.0 ==> FixWinding(pos, t) == Tet(t.a, t.c, t.b, t.d)
    ensures Orientation(pos, t) >= 0.0 ==> FixWinding(pos, t) == t
  {
    var r := FixWinding(pos, t);
    if Orientation(pos, t) < 0.0 && r == t {
      assert Orientation(pos, r) < 0.0;
    }
  }

  /** Running the fix on its own output changes nothing. */
  lemma FixWindingIdempotent(pos: seq<Vec3>, t: Tet)
    requires InRange(pos, t)
    ensures FixWinding(pos, FixWinding(pos, t)) == FixWinding(pos, t)
  {
  }

  /**
   * The fix as written: the swap goes through a `uint32_t` temporary, so the
   * index that moves into c is b modulo 2^32.
   */
  function FixWindingAsWritten(pos: seq<Vec3>, t: Tet): (r: Tet)
    requires InRange(pos, t)
    ensures r.a == t.a && r.d == t.d
    ensures Orientation(pos, t) < 0.0 ==> r.b == t.c && r.c == t.b % U32
    ensures Orientation(pos, t) >= 0.0 ==> r == t
  {
    if Orientation(pos, t) < 0.0 then Tet(t.a, t.c, t.b % U32, t.d) else t
  }

  /** Below 2^32 vertices (or whenever b fits in 32 bits) the two agree. */
  lemma AsWrittenAgreesBelow32Bits(pos: seq<Vec3>, t: Tet)
    requires InRange(pos, t) && t.b < U32
    ensures FixWindingAsWritten(pos, t) == FixWinding(pos, t)
  {
  }

  /**
   * The discrepancy: an inverted tetrahedron whose b index is at least 2^32
   * gets a c index that names a different vertex than the one read.
   */
  lemma AsWrittenTruncatesSwappedIndex(pos: seq<Vec3>, t: Tet)
    requires InRange(pos, t) && Orientation(pos, t) < 0.0 && t.b >= U32
    ensures FixWindingAsWritten(pos, t).c == t.b - U32 * (t.b / U32) != t.b
    ensures FixWindingAsWritten(pos, t) != FixWinding(pos, t)
  {
  }

  /** The repaired tetrahedra, in input order. */
  function FixedTets(tokens: seq<real>): (tets: seq<Tet>)
    requires WellFormed(tokens)
    ensures |tets| == NTets(tokens)
    ensures forall i :: 0 <= i < |tets| ==> InRange(Positions(tokens), tets[i])
  {
    var pos := Positions(tokens);
    seq(NTets(tokens), i requires 0 <= i < NTets(tokens) => FixWinding(pos, RawTet(tokens, i)))
  }

  /** Four indices per tetrahedron, in order. */
  function Flatten(tets: seq<Tet>): (idx: seq<nat>)
    ensures |idx| == 4 * |tets|
  {
    if |tets| == 0 then []
    else
      var t := tets[|tets| - 1];
      Flatten(tets[..|tets| - 1]) + [t.a, t.b, t.c, t.d]
  }

  lemma {:induction false} FlattenAt(tets: seq<Tet>, i: nat)
    requires i < |tets|
    ensures Flatten(tets)[4 * i..4 * i + 4] == [tets[i].a, tets[i].b, tets[i].c, tets[i].d]
  {
    var n := |tets| - 1;
    if i < n {
      FlattenAt(tets[..n], i);
      assert Flatten(tets)[4 * i..4 * i + 4] == Flatten(tets[..n])[4 * i..4 * i + 4];
    }
  }

  /** The cell offsets: the running counter, advancing by 4 per tetrahedron. */
  function CellOffsets(n: nat): (offsets: seq<nat>)
    ensures |offsets| == n
    ensures forall i :: 0 <= i < n ==> offsets[i] == 4 * i
  {
    if n == 0 then [] else CellOffsets(n - 1) + [4 * (n - 1)]
  }

  /** The running [min, max] of the scalars, from (+inf, -inf). */
  function ScalarRange(s: seq<real>): (r: (Ext, Ext))
    ensures |s| == 0 ==> r == (PosInf, NegInf)
    ensures |s| >= 1 ==> r.0.Fin? && r.1.Fin? && r.0.v <= r.1.v
  {
    if |s| == 0 then (PosInf, NegInf)
    else
      var prev := ScalarRange(s[..|s| - 1]);
      (ExtMin(prev.0, Fin(s[|s| - 1])), ExtMax(prev.1, Fin(s[|s| - 1])))
  }

  lemma {:induction false} ScalarRangeIsFold(s: seq<real>)
    requires |s| >= 1
    ensures ScalarRange(s).0 == Fin(ValueRange.Reduce(ValueRange.Min, s[0], s))
    ensures ScalarRange(s).1 == Fin(ValueRange.Reduce(ValueRange.Max, s[0], s))
  {
    var n := |s| - 1;
    if n >= 1 {
      ScalarRangeIsFold(s[..n]);
      assert s[..n][0] == s[0];
    }
  }

  /**
   * The running range bounds every scalar and, for a non-empty mesh, is
   * exactly compute_value_range of the scalars; with no vertices it stays
   * (+inf, -inf).
   */
  lemma ScalarRangeIsValueRange(s: seq<real>)
    ensures |s| == 0 ==> ScalarRange(s) == (PosInf, NegInf)
    ensures |s| >= 1 ==>
      ScalarRange(s) == (Fin(ValueRange.ComputeValueRange(s).0), Fin(ValueRange.ComputeValueRange(s).1))
    ensures forall i :: 0 <= i < |s| ==> ExtLe(ScalarRange(s).0, Fin(s[i])) && ExtLe(Fin(s[i]), ScalarRange(s).1)
  {
    if |s| >= 1 {
      ScalarRangeIsFold(s);
      var r := ValueRange.ComputeValueRange(s);
      assert forall i :: 0 <= i < |s| ==> r.0 <= s[i] <= r.1;
    }
  }

  /** The bounding box grown over the positions, from the empty box. */
  function BoundsOf(pos: seq<Vec3>): (b: Box3)
    ensures |pos| == 0 ==> b == EmptyBox
    ensures |pos| >= 1 ==>
      ExtLe(b.lower.x, b.upper.x) && ExtLe(b.lower.y, b.upper.y) && ExtLe(b.lower.z, b.upper.z)
  {
    if |pos| == 0 then EmptyBox else Extend(BoundsOf(pos[..|pos| - 1]), pos[|pos| - 1])
  }

  /** The bounds contain every vertex position. */
  lemma {:induction false} BoundsContainAll(pos: seq<Vec3>)
    ensures forall i :: 0 <= i < |pos| ==> Contains(BoundsOf(pos), pos[i])
  {
    if |pos| > 0 {
      var n := |pos| - 1;
      BoundsContainAll(pos[..n]);
      forall i | 0 <= i < n
        ensures Contains(BoundsOf(pos), pos[i])
      {
        assert pos[i] == pos[..n][i];
        ExtendKeeps(BoundsOf(pos[..n]), pos[n], pos[i]);
      }
    }
  }

  /** Component `axis` (0, 1 or 2) of a point. */
  function Coord(p: Vec3, axis: nat): real {
    if axis == 0 then p.x else if axis == 1 then p.y else p.z
  }

  function ExtCoord(v: ExtVec3, axis: nat): Ext {
    if axis == 0 then v.x else if axis == 1 then v.y else v.z
  }

  /** One coordinate of every position, in order. */
  function Coords(pos: seq<Vec3>, axis: nat): (c: seq<real>)
    ensures |c| == |pos|
  {
    if |pos| == 0 then [] else Coords(pos[..|pos| - 1], axis) + [Coord(pos[|pos| - 1], axis)]
  }

  /** On each axis the box's extent is the running range of that coordinate. */
  lemma {:induction false} BoundsAxis(pos: seq<Vec3>, axis: nat)
    requires axis < 3
    ensures (ExtCoord(BoundsOf(pos).lower, axis), ExtCoord(BoundsOf(pos).upper, axis)) == ScalarRange(Coords(pos, axis))
  {
    if |pos| > 0 {
      var n := |pos| - 1;
      BoundsAxis(pos[..n], axis);
      assert Coords(pos, axis)[..n] == Coords(pos[..n], axis);
    }
  }

  /**
   * The bounds are exactly the extent of the positions: the empty box with
   * no vertices, otherwise on each axis compute_value_range of that
   * coordinate over all vertices.
   */
  lemma BoundsIsValueRange(pos: seq<Vec3>)
    ensures |pos| == 0 ==> BoundsOf(pos) == EmptyBox
    ensures forall axis :: 0 <= axis < 3 && |pos| >= 1 ==>
      && ExtCoord(BoundsOf(pos).lower, axis) == Fin(ValueRange.ComputeValueRange(Coords(pos, axis)).0)
      && ExtCoord(BoundsOf(pos).upper, axis) == Fin(ValueRange.ComputeValueRange(Coords(pos, axis)).1)
  {
    forall axis | 0 <= axis < 3 && |pos| >= 1
      ensures ExtCoord(BoundsOf(pos).lower, axis) == Fin(ValueRange.ComputeValueRange(Coords(pos, axis)).0)
      ensures ExtCoord(BoundsOf(pos).upper, axis) == Fin(ValueRange.ComputeValueRange(Coords(pos, axis)).1)
    {
      BoundsAxis(pos, axis);
      ScalarRangeIsValueRange(Coords(pos, axis));
    }
  }

  /** What load_off returns for a well-formed stream. */
  function OffBrick(tokens: seq<real>): (b: VolumeBrick)
    requires WellFormed(tokens)
    ensures b.brick.Unstructured? && b.dims.None? && b.voxelData.None?
    ensures |b.brick.vertexPosition| == |b.brick.vertexData| == NVerts(tokens)
    ensures |b.brick.index| == 4 * NTets(tokens) && |b.brick.cellIndex| == |b.brick.cellType| == NTets(tokens)
    ensures b.bounds == BoundsOf(b.brick.vertexPosition) && b.valueRange == Some(ScalarRange(b.brick.vertexData))
  {
    var pos := Positions(tokens);
    var tets := FixedTets(tokens);
    VolumeBrick(
      Unstructured(pos, Flatten(tets),
                   CellOffsets(NTets(tokens)),
                   seq(NTets(tokens), _ => TetrahedronCell),
                   Scalars(tokens)),
      BoundsOf(pos), None, None, Some(ScalarRange(Scalars(tokens))))
  }

  /**
   * The first loop of `load_off`: pushes each vertex's position and scalar
   * and grows the value range and the bounds.
   */
  method ReadVertices(tokens: seq<real>) returns (positions: seq<Vec3>, scalars: seq<real>, range: (Ext, Ext), bounds: Box3)
    requires WellFormed(tokens)
    ensures positions == Positions(tokens) && scalars == Scalars(tokens)
    ensures range == ScalarRange(scalars) && bounds == BoundsOf(positions)
  {
    var nVerts := Count(tokens[0]);
    positions, scalars := [], [];
    var lo, hi := PosInf, NegInf;
    bounds := EmptyBox;
    for i := 0 to nVerts
      invariant positions == Positions(tokens)[..i] && scalars == Scalars(tokens)[..i]
      invariant (lo, hi) == ScalarRange(scalars)
      invariant bounds == BoundsOf(positions)
    {
      // `fin >> p.x >> p.y >> p.z >> value`: the i-th record after the header
      var p, value := VertexAt(tokens, i), ScalarAt(tokens, i);
      ScalarRangeStep(scalars, value);
      BoundsStep(positions, p);
      VertexStep(tokens, i);
      positions := positions + [p];
      scalars := scalars + [value];
      lo := ExtMin(lo, Fin(value));
      hi := ExtMax(hi, Fin(value));
      bounds := Extend(bounds, p);
    }
    assert Positions(tokens)[..nVerts] == Positions(tokens);
    assert Scalars(tokens)[..nVerts] == Scalars(tokens);
    range := (lo, hi);
  }

  lemma VertexStep(tokens: seq<real>, i: nat)
    requires WellFormed(tokens) && i < NVerts(tokens)
    ensures Positions(tokens)[..i + 1] == Positions(tokens)[..i] + [VertexAt(tokens, i)]
    ensures Scalars(tokens)[..i + 1] == Scalars(tokens)[..i] + [ScalarAt(tokens, i)]
  {
    assert Positions(tokens)[..i + 1] == Positions(tokens)[..i] + [Positions(tokens)[i]];
    assert Scalars(tokens)[..i + 1] == Scalars(tokens)[..i] + [Scalars(tokens)[i]];
  }

  lemma ScalarRangeStep(s: seq<real>, v: real)
    ensures ScalarRange(s + [v]) == (ExtMin(ScalarRange(s).0, Fin(v)), ExtMax(ScalarRange(s).1, Fin(v)))
  {
    assert (s + [v])[..|s|] == s;
  }

  lemma BoundsStep(pos: seq<Vec3>, p: Vec3)
    ensures BoundsOf(pos + [p]) == Extend(BoundsOf(pos), p)
  {
    assert (pos + [p])[..|pos|] == pos;
  }

  /**
   * The second loop of `load_off`: repairs each tetrahedron's winding and
   * pushes its four indices and its cell offset, which advances by 4.
   */
  method ReadTets(tokens: seq<real>, positions: seq<Vec3>) returns (indices: seq<nat>, offsets: seq<nat>)
    requires WellFormed(tokens) && positions == Positions(tokens)
    ensures indices == Flatten(FixedTets(tokens))
    ensures offsets == CellOffsets(NTets(tokens))
  {
    var nTets := Count(tokens[1]);
    indices, offsets := [], [];
    var offset := 0;
    ghost var fixed := FixedTets(tokens);
    for i := 0 to nTets
      invariant indices == Flatten(fixed[..i])
      invariant offsets == CellOffsets(i)
      invariant offset == 4 * i
    {
      // `fin >> a >> b >> c >> d`: the i-th record after the vertices
      var raw := RawTet(tokens, i);
      var a, b, c, d := RepairWinding(positions, raw);
      FlattenStep(fixed, i);
      indices := indices + [a, b, c, d];
      offsets := offsets + [offset];
      offset := offset + 4;
    }
    assert fixed[..nTets] == fixed;
  }

  /** The swap of b and c through a temporary when the tetrahedron is inverted. */
  method RepairWinding(positions: seq<Vec3>, raw: Tet) returns (a: nat, b: nat, c: nat, d: nat)
    requires InRange(positions, raw)
    ensures Tet(a, b, c, d) == FixWinding(positions, raw)
  {
    a, b, c, d := raw.a, raw.b, raw.c, raw.d;
    FixWindingSwapsIffInverted(positions, raw);
    if TripleProduct(positions[a], positions[b], positions[c], positions[d]) < 0.0 {
      var temp := b;
      b := c;
      c := temp;
    }
  }

  lemma FlattenStep(tets: seq<Tet>, i: nat)
    requires i < |tets|
    ensures Flatten(tets[..i + 1]) == Flatten(tets[..i]) + [tets[i].a, tets[i].b, tets[i].c, tets[i].d]
  {
    assert tets[..i + 1][..i] == tets[..i];
  }

  /** `load_off`: the two loops, then the arrays handed to the unstructured volume. */
  method LoadOffMesh(tokens: seq<real>) returns (brick: VolumeBrick)
    requires WellFormed(tokens)
    ensures brick == OffBrick(tokens)
  {
    var positions, scalars, range, bounds := ReadVertices(tokens);
    var cellTypes := seq(Count(tokens[1]), _ => TetrahedronCell);
    var indices, offsets := ReadTets(tokens, positions);
    brick := VolumeBrick(
      Unstructured(positions, indices, offsets, cellTypes, scalars),
      bounds, None, None, Some(range));
  }

  /**
   * The vertex arrays: positions and scalars both have n_verts entries,
   * index-aligned, in input order.
   */
  lemma OffBrickVertices(tokens: seq<real>)
    requires WellFormed(tokens)
    ensures var v := OffBrick(tokens).brick;
      && |v.vertexPosition| == |v.vertexData| == NVerts(tokens)
      && forall i :: 0 <= i < NVerts(tokens) ==>
           v.vertexPosition[i] == VertexAt(tokens, i) && v.vertexData[i] == ScalarAt(tokens, i)
  {
  }

  /** The cell arrays: four indices per tetrahedron, offsets 4*i, one tetrahedron tag per cell. */
  lemma OffBrickCells(tokens: seq<real>)
    requires WellFormed(tokens)
    ensures var v := OffBrick(tokens).brick;
      && |v.index| == 4 * NTets(tokens)
      && |v.cellIndex| == |v.cellType| == NTets(tokens)
      && forall i :: 0 <= i < NTets(tokens) ==> v.cellIndex[i] == 4 * i && v.cellType[i] == TetrahedronCell
  {
  }

  /** Index group i is tetrahedron record i after the winding fix, in input order. */
  lemma OffBrickIndexGroups(tokens: seq<real>, i: nat)
    requires WellFormed(tokens) && i < NTets(tokens)
    ensures var t := FixWinding(Positions(tokens), RawTet(tokens, i));
      OffBrick(tokens).brick.index[4 * i..4 * i + 4] == [t.a, t.b, t.c, t.d]
  {
    FlattenAt(FixedTets(tokens), i);
  }

  /** Every emitted tetrahedron references vertices that exist and is not inverted. */
  lemma OffBrickOriented(tokens: seq<real>, i: nat)
    requires WellFormed(tokens) && i < NTets(tokens)
    ensures var v := OffBrick(tokens).brick;
      var t := Tet(v.index[4 * i], v.index[4 * i + 1], v.index[4 * i + 2], v.index[4 * i + 3]);
      InRange(v.vertexPosition, t) && Orientation(v.vertexPosition, t) >= 0.0
  {
    var v := OffBrick(tokens).brick;
    var f := FixedTets(tokens)[i];
    FlattenAt(FixedTets(tokens), i);
    var w := v.index[4 * i..4 * i + 4];
    assert w[0] == v.index[4 * i] && w[1] == v.index[4 * i + 1];
    assert w[2] == v.index[4 * i + 2] && w[3] == v.index[4 * i + 3];
    assert Tet(v.index[4 * i], v.index[4 * i + 1], v.index[4 * i + 2], v.index[4 * i + 3]) == f;
  }

  /** The value range and the bounds agree with the vertices read. */
  lemma OffBrickRangeAndBounds(tokens: seq<real>)
    requires WellFormed(tokens)
    ensures var b := OffBrick(tokens);
      && b.valueRange.Some?
      && (NVerts(tokens) == 0 ==> b.valueRange.value == (PosInf, NegInf))
      && (forall i :: 0 <= i < NVerts(tokens) ==>
            ExtLe(b.valueRange.value.0, Fin(ScalarAt(tokens, i))) && ExtLe(Fin(ScalarAt(tokens, i)), b.valueRange.value.1)
            && Contains(b.bounds, VertexAt(tokens, i)))
  {
    ScalarRangeIsValueRange(Scalars(tokens));
    BoundsContainAll(Positions(tokens));
    assert forall i :: 0 <= i < NVerts(tokens) ==>
      Scalars(tokens)[i] == ScalarAt(tokens, i) && Positions(tokens)[i] == VertexAt(tokens, i);
  }

  /**
   * Exactly the header, n_verts vertex records and n_tets tetrahedron
   * records are consumed: whatever follows does not change the result.
   */
  lemma OffIgnoresTrailingTokens(tokens: seq<real>, rest: seq<real>)
    requires WellFormed(tokens)
    ensures WellFormed(tokens[..End(tokens)] + rest)
    ensures OffBrick(tokens[..End(tokens)] + rest) == OffBrick(tokens)
  {
    var t2 := tokens[..End(tokens)] + rest;
    assert forall k :: 0 <= k < End(tokens) ==> t2[k] == tokens[k];
    assert Positions(t2) == Positions(tokens);
    assert Scalars(t2) == Scalars(tokens);
    assert forall i :: 0 <= i < NTets(tokens) ==> RawTet(t2, i) == RawTet(tokens, i);
    assert FixedTets(t2) == FixedTets(tokens);
  }

  /** The mirror image of a positively oriented tetrahedron is repaired back to it. */
  lemma MirrorRepaired(pos: seq<Vec3>, t: Tet)
    requires InRange(pos, t) && Orientation(pos, t) > 0.0
    ensures Orientation(pos, Tet(t.a, t.c, t.b, t.d)) == -Orientation(pos, t)
    ensures FixWinding(pos, Tet(t.a, t.c, t.b, t.d)) == t
  {
    TripleProductSwap(pos[t.a], pos[t.b], pos[t.c], pos[t.d]);
    FixWindingSwapsIffInverted(pos, Tet(t.a, t.c, t.b, t.d));
  }

  /** Scalars 0, 1, 2, 3 (the unit tetrahedron's) give the value range [0, 3]. */
  lemma UnitTetRange()
    ensures ScalarRange([0.0, 1.0, 2.0, 3.0]) == (Fin(0.0), Fin(3.0))
  {
    assert [0.0][..0] == [];
    assert ScalarRange([0.0]) == (Fin(0.0), Fin(0.0));
    assert [0.0, 1.0][..1] == [0.0];
    assert ScalarRange([0.0, 1.0]) == (Fin(0.0), Fin(1.0));
    assert [0.0, 1.0, 2.0][..2] == [0.0, 1.0];
    assert ScalarRange([0.0, 1.0, 2.0]) == (Fin(0.0), Fin(2.0));
    assert [0.0, 1.0, 2.0, 3.0][..3] == [0.0, 1.0, 2.0];
  }
}
