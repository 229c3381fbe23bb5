/**
 * `compute_value_range` of util/util.h: two reductions, one with std::min and
 * one with std::max, both seeded with vals[0]. The TBB reduction is modelled
 * as a sequential fold plus an explicit description (a `Plan`) of how the
 * range may be split into chunks and joined again.
 */
module ValueRange {

  datatype Op = Min | Max

  /** `std::min(a, b)` (b when b < a) and `std::max(a, b)` (b when a < b). */
  function Pick(op: Op, a: real, b: real): real {
    match op
    case Min => if b < a then b else a
    case Max => if a < b then b else a
  }

  /** r is no worse than x under op: r <= x for Min, r >= x for Max. */
  predicate Beats(op: Op, r: real, x: real) {
    match op
    case Min => r <= x
    case Max => r >= x
  }

  /** The sequential fold: seed, then every element of s from left to right. */
  function Reduce(op: Op, seed: real, s: seq<real>): (r: real)
    ensures Beats(op, r, seed)
    ensures forall i :: 0 <= i < |s| ==> Beats(op, r, s[i])
    ensures r == seed || r in s
    decreases |s|
  {
    if |s| == 0 then seed
    else
      var rest := Reduce(op, seed, s[..|s| - 1]);
      assert forall i :: 0 <= i < |s| - 1 ==> s[..|s| - 1][i] == s[i];
      Pick(op, rest, s[|s| - 1])
  }

  /** A value that beats the seed and every element, and is one of them, is the fold. */
  lemma ReduceUnique(op: Op, seed: real, s: seq<real>, r: real)
    requires Beats(op, r, seed) && forall i :: 0 <= i < |s| ==> Beats(op, r, s[i])
    requires r == seed || r in s
    ensures r == Reduce(op, seed, s)
  {
    var f := Reduce(op, seed, s);
    if f != seed {
      var k :| 0 <= k < |s| && s[k] == f;
    }
    if r != seed {
      var k :| 0 <= k < |s| && s[k] == r;
    }
  }

  /** Combining the results of two adjacent pieces gives the result over both. */
  lemma ReduceSplit(op: Op, seed: real, a: seq<real>, b: seq<real>)
    ensures Pick(op, Reduce(op, seed, a), Reduce(op, seed, b)) == Reduce(op, seed, a + b)
  {
    var ra, rb := Reduce(op, seed, a), Reduce(op, seed, b);
    var r := Pick(op, ra, rb);
    forall i | 0 <= i < |a + b|
      ensures Beats(op, r, (a + b)[i])
    {
      if i < |a| {
        assert (a + b)[i] == a[i];
      } else {
        assert (a + b)[i] == b[i - |a|];
      }
    }
    if r != seed {
      if r == ra {
        var k :| 0 <= k < |a| && a[k] == r;
        assert (a + b)[k] == r;
      } else {
        var k :| 0 <= k < |b| && b[k] == r;
        assert (a + b)[|a| + k] == r;
      }
    }
    ReduceUnique(op, seed, a + b, r);
  }

  /** The fold does not depend on the order of the elements. */
  lemma ReducePermutation(op: Op, seed: real, a: seq<real>, b: seq<real>)
    requires multiset(a) == multiset(b)
    ensures Reduce(op, seed, a) == Reduce(op, seed, b)
  {
    var r := Reduce(op, seed, a);
    forall i | 0 <= i < |b|
      ensures Beats(op, r, b[i])
    {
      assert b[i] in multiset(b);
      assert b[i] in a;
      var k :| 0 <= k < |a| && a[k] == b[i];
    }
    if r != seed {
      assert r in multiset(a);
      assert r in b;
    }
    ReduceUnique(op, seed, b, r);
  }

  /**
   * How TBB may cut the range and combine the pieces: a chunk handed to a
   * fresh body (accumulator = the identity vals[0]); two sub-plans whose
   * results are joined by the combining lambda; or a chunk handed to a body
   * that continues from an earlier result.
   */
  datatype Plan = Chunk(len: nat) | Join(left: Plan, right: Plan) | Continue(first: Plan, len: nat)

  function Size(p: Plan): nat {
    match p
    case Chunk(n) => n
    case Join(l, r) => Size(l) + Size(r)
    case Continue(f, n) => Size(f) + n
  }

  /** TBB never hands a body an empty range (min_element of one would be `end`). */
  predicate ValidPlan(p: Plan) {
    match p
    case Chunk(n) => n >= 1
    case Join(l, r) => ValidPlan(l) && ValidPlan(r)
    case Continue(f, n) => ValidPlan(f) && n >= 1
  }

  /** `*std::min_element(r.begin(), r.end())` (resp. max_element) of a non-empty chunk. */
  function Extreme(op: Op, chunk: seq<real>): real
    requires |chunk| >= 1
  {
    Reduce(op, chunk[0], chunk[1..])
  }

  /** The body lambda: `std::min(*min_element(r), b)` (resp. max). */
  function Body(op: Op, chunk: seq<real>, acc: real): real
    requires |chunk| >= 1
  {
    Pick(op, Extreme(op, chunk), acc)
  }

  function RunPlan(op: Op, p: Plan, identity: real, s: seq<real>): (r: real)
    requires ValidPlan(p) && Size(p) == |s|
    ensures Beats(op, r, identity)
  {
    match p
    case Chunk(_) => Body(op, s, identity)
    case Join(l, r) =>
      Pick(op, RunPlan(op, l, identity, s[..Size(l)]), RunPlan(op, r, identity, s[Size(l)..]))
    case Continue(f, _) =>
      Body(op, s[Size(f)..], RunPlan(op, f, identity, s[..Size(f)]))
  }

  lemma BodyIsFold(op: Op, chunk: seq<real>, acc: real)
    requires |chunk| >= 1
    ensures Body(op, chunk, acc) == Reduce(op, acc, chunk)
  {
    var r := Body(op, chunk, acc);
    assert chunk == [chunk[0]] + chunk[1..];
    forall i | 0 <= i < |chunk|
      ensures Beats(op, r, chunk[i])
    {
      if i > 0 {
        assert chunk[i] == chunk[1..][i - 1];
      }
    }
    if r != acc && r != chunk[0] {
      var k :| 0 <= k < |chunk[1..]| && chunk[1..][k] == r;
      assert chunk[k + 1] == r;
    }
    ReduceUnique(op, acc, chunk, r);
  }

  /**
   * Whatever split TBB chooses, the parallel reduction equals the sequential
   * fold from the same identity.
   */
  lemma {:induction false} RunPlanIsFold(op: Op, p: Plan, identity: real, s: seq<real>)
    requires ValidPlan(p) && Size(p) == |s|
    ensures RunPlan(op, p, identity, s) == Reduce(op, identity, s)
  {
    match p
    case Chunk(_) =>
      BodyIsFold(op, s, identity);
    case Join(l, r) =>
      var head, tail := s[..Size(l)], s[Size(l)..];
      RunPlanIsFold(op, l, identity, head);
      RunPlanIsFold(op, r, identity, tail);
      ReduceSplit(op, identity, head, tail);
      assert head + tail == s;
    case Continue(f, _) =>
      var head, tail := s[..Size(f)], s[Size(f)..];
      RunPlanIsFold(op, f, identity, head);
      var acc := Reduce(op, identity, head);
      BodyIsFold(op, tail, acc);
      FoldFromResult(op, identity, head, tail);
      assert head + tail == s;
  }

  /** Continuing a fold from its own result is folding the concatenation. */
  lemma FoldFromResult(op: Op, seed: real, a: seq<real>, b: seq<real>)
    ensures Reduce(op, Reduce(op, seed, a), b) == Reduce(op, seed, a + b)
  {
    var ra := Reduce(op, seed, a);
    var r := Reduce(op, ra, b);
    forall i | 0 <= i < |a + b|
      ensures Beats(op, r, (a + b)[i])
    {
      if i < |a| {
        assert (a + b)[i] == a[i];
      } else {
        assert (a + b)[i] == b[i - |a|];
      }
    }
    if r != seed {
      if r == ra {
        var k :| 0 <= k < |a| && a[k] == r;
        assert (a + b)[k] == r;
      } else {
        var k :| 0 <= k < |b| && b[k] == r;
        assert (a + b)[|a| + k] == r;
      }
    }
    ReduceUnique(op, seed, a + b, r);
  }

  /**
   * `compute_value_range(vals, n_vals)`: [min, max] of the buffer. vals[0]
   * seeds both reductions, so the buffer must not be empty.
   */
  function ComputeValueRange(vals: seq<real>): (r: (real, real))
    requires |vals| >= 1
    ensures forall i :: 0 <= i < |vals| ==> r.0 <= vals[i] <= r.1
    ensures exists i :: 0 <= i < |vals| && vals[i] == r.0
    ensures exists j :: 0 <= j < |vals| && vals[j] == r.1
    ensures |vals| == 1 ==> r == (vals[0], vals[0])
  {
    (Reduce(Min, vals[0], vals), Reduce(Max, vals[0], vals))
  }

  /** Any two splits TBB may choose, one per reduction, give ComputeValueRange. */
  lemma ParallelValueRange(vals: seq<real>, pMin: Plan, pMax: Plan)
    requires |vals| >= 1
    requires ValidPlan(pMin) && Size(pMin) == |vals|
    requires ValidPlan(pMax) && Size(pMax) == |vals|
    ensures (RunPlan(Min, pMin, vals[0], vals), RunPlan(Max, pMax, vals[0], vals)) == ComputeValueRange(vals)
  {
    RunPlanIsFold(Min, pMin, vals[0], vals);
    RunPlanIsFold(Max, pMax, vals[0], vals);
  }

  /** Shuffling the buffer does not change the computed range. */
  lemma ValueRangeOrderIndependent(a: seq<real>, b: seq<real>)
    requires |a| >= 1 && multiset(a) == multiset(b)
    ensures |b| >= 1 && ComputeValueRange(a) == ComputeValueRange(b)
  {
    assert |b| == |multiset(b)| == |multiset(a)| == |a|;
    var ra, rb := ComputeValueRange(a), ComputeValueRange(b);
    var i :| 0 <= i < |a| && a[i] == ra.0;
    assert a[i] in multiset(b);
    var j :| 0 <= j < |b| && b[j] == rb.0;
    assert b[j] in multiset(a);
    var k :| 0 <= k < |a| && a[k] == ra.1;
    assert a[k] in multiset(b);
    var m :| 0 <= m < |b| && b[m] == rb.1;
    assert b[m] in multiset(a);
  }
}
