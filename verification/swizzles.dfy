/** The swizzle members of `Vector<2>`, `Vector<3>` and `Vector<4>`.

    A swizzle is one more member of the vector's union: it names a fixed
    list of source cells.  Reading it gathers those cells into a shorter
    vector; assigning to it scatters a value back into them. */
module Swizzles {
  import opened Elementwise
  import opened Vectors

  datatype Swizzle = XY | XZ | XW | YZ | YW | ZW | XYZ | YZW | XYZW

  /** The source indices of each swizzle, in order. */
  function Indices(s: Swizzle): seq<nat> {
    match s
    case XY => [0, 1]
    case XZ => [0, 2]
    case XW => [0, 3]
    case YZ => [1, 2]
    case YW => [1, 3]
    case ZW => [2, 3]
    case XYZ => [0, 1, 2]
    case YZW => [1, 2, 3]
    case XYZW => [0, 1, 2, 3]
  }

  /** Which swizzles a vector of length `n` declares: `xy` on 2-vectors;
      `xy xz yz xyz` on 3-vectors; all nine on 4-vectors. */
  predicate DeclaredOn(s: Swizzle, n: int) {
    match s
    case XY => ValidLength(n)
    case XZ | YZ | XYZ => n == 3 || n == 4
    case XW | YW | ZW | YZW | XYZW => n == 4
  }

  predicate StrictlyIncreasing(idx: seq<nat>) {
    forall i, j :: 0 <= i < j < |idx| ==> idx[i] < idx[j]
  }

  predicate InRange(idx: seq<nat>, n: nat) {
    forall i :: 0 <= i < |idx| ==> idx[i] < n
  }

  /** Every declared swizzle lists distinct cells of its vector, in increasing
      order, so none of them names a cell twice; its result is itself a
      2-, 3- or 4-vector. */
  lemma DeclaredSwizzlesAreWellFormed(s: Swizzle, n: int)
    requires 0 <= n && DeclaredOn(s, n)
    ensures StrictlyIncreasing(Indices(s)) && InRange(Indices(s), n)
    ensures ValidLength(|Indices(s)|) && |Indices(s)| <= n
  {
  }

  /** Reading a swizzle: the listed cells, in order. */
  function Read(v: seq<real>, s: Swizzle): (r: seq<real>)
    requires DeclaredOn(s, |v|)
    ensures |r| == |Indices(s)|
    ensures forall k :: 0 <= k < |r| ==> r[k] == v[Indices(s)[k]]
  {
    DeclaredSwizzlesAreWellFormed(s, |v|);
    seq(|Indices(s)|, k requires 0 <= k < |Indices(s)| => v[Indices(s)[k]])
  }

  /** Cell-by-cell writes of `values[k]` into `v[idx[k]]`, in list order. */
  function Scatter(v: seq<real>, idx: seq<nat>, values: seq<real>): (r: seq<real>)
    requires |idx| == |values| && InRange(idx, |v|)
    ensures |r| == |v|
    ensures forall j :: 0 <= j < |v| && j !in idx ==> r[j] == v[j]
    ensures StrictlyIncreasing(idx) ==> forall k :: 0 <= k < |idx| ==> r[idx[k]] == values[k]
    decreases |idx|
  {
    if |idx| == 0 then v
    else
      var rest := Scatter(v[idx[0] := values[0]], idx[1..], values[1..]);
      assert forall k :: 1 <= k < |idx| ==> idx[k] == idx[1..][k - 1];
      assert StrictlyIncreasing(idx) ==> idx[0] !in idx[1..] by {
        if StrictlyIncreasing(idx) {
          forall k | 0 <= k < |idx[1..]|
            ensures idx[1..][k] != idx[0]
          {
            assert idx[0] < idx[k + 1];
          }
        }
      }
      assert StrictlyIncreasing(idx) ==> StrictlyIncreasing(idx[1..]) by {
        if StrictlyIncreasing(idx) {
          forall i, j | 0 <= i < j < |idx[1..]|
            ensures idx[1..][i] < idx[1..][j]
          {
            assert idx[1..][i] == idx[i + 1] && idx[1..][j] == idx[j + 1];
          }
        }
      }
      rest
  }

  /** Assigning a whole value to a swizzle (`v.xy = w`): the listed cells take
      `w`'s components and every other cell keeps its value. */
  function Write(v: seq<real>, s: Swizzle, w: seq<real>): (r: seq<real>)
    requires DeclaredOn(s, |v|) && |w| == |Indices(s)|
    ensures |r| == |v|
    ensures forall k :: 0 <= k < |w| ==> r[Indices(s)[k]] == w[k]
    ensures forall j :: 0 <= j < |v| && j !in Indices(s) ==> r[j] == v[j]
  {
    DeclaredSwizzlesAreWellFormed(s, |v|);
    Scatter(v, Indices(s), w)
  }

  /** Compound assignment through a swizzle with a scalar (`v.xy *= 2`):
      the swizzle's value is combined with the scalar and written back. */
  function CompoundScalar(v: seq<real>, s: Swizzle, op: Op, scalar: real): (r: seq<real>)
    requires DeclaredOn(s, |v|) && Defined(op, scalar)
    ensures |r| == |v|
    ensures forall k :: 0 <= k < |Indices(s)| ==>
      r[Indices(s)[k]] == Apply(op, v[Indices(s)[k]], scalar)
    ensures forall j :: 0 <= j < |v| && j !in Indices(s) ==> r[j] == v[j]
  {
    Write(v, s, CombineScalar(op, Read(v, s), scalar))
  }

  /** Compound assignment through a swizzle with a vector right operand. */
  function Compound(v: seq<real>, s: Swizzle, op: Op, rhs: seq<real>): (r: seq<real>)
    requires DeclaredOn(s, |v|) && |rhs| == |Indices(s)| && DefinedOn(op, rhs)
    ensures |r| == |v|
    ensures forall k :: 0 <= k < |Indices(s)| ==>
      r[Indices(s)[k]] == Apply(op, v[Indices(s)[k]], rhs[k])
    ensures forall j :: 0 <= j < |v| && j !in Indices(s) ==> r[j] == v[j]
  {
    Write(v, s, Combine(op, Read(v, s), rhs))
  }

  /** Reading a swizzle right after assigning it gives back the assigned value. */
  lemma ReadAfterWrite(v: seq<real>, s: Swizzle, w: seq<real>)
    requires DeclaredOn(s, |v|) && |w| == |Indices(s)|
    ensures Read(Write(v, s, w), s) == w
  {
  }

  /** Assigning a swizzle its own current value changes nothing. */
  lemma WriteAfterRead(v: seq<real>, s: Swizzle)
    requires DeclaredOn(s, |v|)
    ensures Write(v, s, Read(v, s)) == v
  {
    var r := Write(v, s, Read(v, s));
    forall j | 0 <= j < |v|
      ensures r[j] == v[j]
    {
      if j in Indices(s) {
        var k :| 0 <= k < |Indices(s)| && Indices(s)[k] == j;
        assert r[Indices(s)[k]] == Read(v, s)[k];
      }
    }
  }

  /** The full-width swizzle `xyzw` reads the whole vector, and assigning it replaces the whole vector. */
  lemma FullSwizzleIsWholeVector(v: seq<real>, w: seq<real>)
    requires |v| == 4 && |w| == 4
    ensures Read(v, XYZW) == v
    ensures Write(v, XYZW, w) == w
  {
    var r := Write(v, XYZW, w);
    assert forall k :: 0 <= k < 4 ==> Indices(XYZW)[k] == k;
    assert forall k :: 0 <= k < 4 ==> r[k] == w[k];
  }

  /** Each swizzle of (1,2,3,4) reads the named components. */
  lemma ReadFixtures()
    ensures Read(Vec2(1.0, 2.0), XY) == Vec2(1.0, 2.0)
    ensures Read(Vec3(1.0, 2.0, 3.0), XZ) == Vec2(1.0, 3.0)
    ensures Read(Vec3(1.0, 2.0, 3.0), YZ) == Vec2(2.0, 3.0)
    ensures Read(Vec3(1.0, 2.0, 3.0), XYZ) == Vec3(1.0, 2.0, 3.0)
    ensures Read(Vec4(1.0, 2.0, 3.0, 4.0), XW) == Vec2(1.0, 4.0)
    ensures Read(Vec4(1.0, 2.0, 3.0, 4.0), YW) == Vec2(2.0, 4.0)
    ensures Read(Vec4(1.0, 2.0, 3.0, 4.0), ZW) == Vec2(3.0, 4.0)
    ensures Read(Vec4(1.0, 2.0, 3.0, 4.0), YZW) == Vec3(2.0, 3.0, 4.0)
    ensures Read(Vec4(1.0, 2.0, 3.0, 4.0), XYZW) == Vec4(1.0, 2.0, 3.0, 4.0)
  {
  }

  /** A zero 4-vector, then `xyzw = 1`, then `xy *= 2`, holds (2, 2, 1, 1). */
  lemma ExampleFixture()
    ensures CompoundScalar(Write(Zero(4), XYZW, Vec4(1.0, 1.0, 1.0, 1.0)), XY, Times, 2.0)
      == Vec4(2.0, 2.0, 1.0, 1.0)
  {
    FullSwizzleIsWholeVector(Zero(4), Vec4(1.0, 1.0, 1.0, 1.0));
    DoublingXYOfOnes();
  }

  lemma DoublingXYOfOnes()
    ensures CompoundScalar(Vec4(1.0, 1.0, 1.0, 1.0), XY, Times, 2.0) == Vec4(2.0, 2.0, 1.0, 1.0)
  {
    var ones := Vec4(1.0, 1.0, 1.0, 1.0);
    var r := CompoundScalar(ones, XY, Times, 2.0);
    assert Indices(XY) == [0, 1];
    assert r[0] == Apply(Times, ones[0], 2.0);
    assert r[1] == Apply(Times, ones[1], 2.0);
    assert r[2] == ones[2] && r[3] == ones[3];
  }
}
