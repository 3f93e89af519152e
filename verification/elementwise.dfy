/** Cell-by-cell kernels shared by every CinMath value type.

    Vectors, matrices and quaternions all keep their components in one flat
    array (`raw`); their arithmetic operators, equality and indexed writes act
    on that array one cell at a time.  This module states those operations
    once, over `seq<real>`, and the per-type modules reuse them. */
module Elementwise {

  /** The four binary operators every value type declares, as the vector form
      (`a op b`), the scalar form (`a op s`) and the compound form (`a op= b`). */
  datatype Op = Plus | Minus | Times | Over

  /** Division by zero has no real value (the library yields IEEE Inf/NaN);
      it is the only case an operator is not defined for. */
  predicate Defined(op: Op, y: real) {
    op.Over? ==> y != 0.0
  }

  /** Every cell of `b` is a legal right operand of `op`. */
  predicate DefinedOn(op: Op, b: seq<real>) {
    forall i :: 0 <= i < |b| ==> Defined(op, b[i])
  }

  function Apply(op: Op, x: real, y: real): real
    requires Defined(op, y)
  {
    match op
    case Plus => x + y
    case Minus => x - y
    case Times => x * y
    case Over => x / y
  }

  /** `n` copies of `s`: the broadcast constructor, and the zero-fill one for `s == 0`. */
  function Broadcast(n: nat, s: real): (r: seq<real>)
    ensures |r| == n
    ensures forall i :: 0 <= i < n ==> r[i] == s
  {
    seq(n, _ => s)
  }

  function Zero(n: nat): (r: seq<real>)
    ensures r == Broadcast(n, 0.0)
  {
    seq(n, _ => 0.0)
  }

  /** Binary operator between two values of the same shape. */
  function Combine(op: Op, a: seq<real>, b: seq<real>): (r: seq<real>)
    requires |a| == |b| && DefinedOn(op, b)
    ensures |r| == |a|
    ensures forall i :: 0 <= i < |a| ==> r[i] == Apply(op, a[i], b[i])
  {
    seq(|a|, i requires 0 <= i < |a| => Apply(op, a[i], b[i]))
  }

  /** Binary operator between a value and a scalar: the scalar meets every cell. */
  function CombineScalar(op: Op, a: seq<real>, s: real): (r: seq<real>)
    requires Defined(op, s)
    ensures |r| == |a|
    ensures forall i :: 0 <= i < |a| ==> r[i] == Apply(op, a[i], s)
  {
    seq(|a|, i requires 0 <= i < |a| => Apply(op, a[i], s))
  }

  /** Unary minus. */
  function Negate(a: seq<real>): (r: seq<real>)
    ensures r == Combine(Minus, Zero(|a|), a)
  {
    seq(|a|, i requires 0 <= i < |a| => -a[i])
  }

  /** Unary plus returns its operand unchanged. */
  function UnaryPlus(a: seq<real>): (r: seq<real>)
    ensures r == Combine(Plus, a, Zero(|a|))
  {
    a
  }

  /** `operator==`: the conjunction of the cell-wise comparisons. */
  predicate Equal(a: seq<real>, b: seq<real>)
    requires |a| == |b|
    ensures Equal(a, b) <==> a == b
  {
    forall i :: 0 <= i < |a| ==> a[i] == b[i]
  }

  /** `operator!=`, written in the headers as its own disjunction of
      cell-wise differences rather than as the negation of `==`. */
  predicate NotEqual(a: seq<real>, b: seq<real>)
    requires |a| == |b|
    ensures NotEqual(a, b) <==> !Equal(a, b)
  {
    exists i :: 0 <= i < |a| && a[i] != b[i]
  }

  /** A write through `operator[]` (or any named alias of that cell). */
  function WithCell(a: seq<real>, k: nat, value: real): (r: seq<real>)
    requires k < |a|
    ensures |r| == |a| && r[k] == value
    ensures forall j :: 0 <= j < |a| && j != k ==> r[j] == a[j]
  {
    a[k := value]
  }

  /** Overwriting any single cell with a different value breaks `==` and makes `!=` true. */
  lemma ChangingOneCellBreaksEquality(a: seq<real>, k: nat, value: real)
    requires k < |a|
    ensures NotEqual(a, WithCell(a, k, value)) <==> value != a[k]
  {
    var r := WithCell(a, k, value);
    if value != a[k] {
      assert r[k] != a[k];
    }
  }

  /** The scalar forms behave exactly like the vector forms against a broadcast value. */
  lemma ScalarFormIsBroadcast(op: Op, a: seq<real>, s: real)
    requires Defined(op, s)
    ensures CombineScalar(op, a, s) == Combine(op, a, Broadcast(|a|, s))
  {
  }

  /** Subtraction undoes addition, cell by cell. */
  lemma SubtractUndoesAdd(a: seq<real>, b: seq<real>)
    requires |a| == |b|
    ensures Combine(Minus, Combine(Plus, a, b), b) == a
  {
  }

  /** Division undoes multiplication by non-zero cells. */
  lemma DivideUndoesMultiply(a: seq<real>, b: seq<real>)
    requires |a| == |b| && DefinedOn(Over, b)
    ensures Combine(Over, Combine(Times, a, b), b) == a
  {
    var m := Combine(Times, a, b);
    forall i | 0 <= i < |a|
      ensures Combine(Over, m, b)[i] == a[i]
    {
      assert m[i] == a[i] * b[i];
    }
  }

  /** Addition and multiplication do not depend on operand order. */
  lemma PlusAndTimesCommute(a: seq<real>, b: seq<real>)
    requires |a| == |b|
    ensures Combine(Plus, a, b) == Combine(Plus, b, a)
    ensures Combine(Times, a, b) == Combine(Times, b, a)
  {
  }

  /** Negation is an involution: -(-v) == v. */
  lemma NegateInvolution(a: seq<real>)
    ensures Negate(Negate(a)) == a
  {
  }

  /** Compound assignment `lhs op= rhs`: the cells of `lhs` are updated in
      place, one at a time, and the final value is that of `lhs op rhs`. */
  method CompoundAssign(lhs: seq<real>, op: Op, rhs: seq<real>) returns (result: seq<real>)
    requires |lhs| == |rhs| && DefinedOn(op, rhs)
    ensures result == Combine(op, lhs, rhs)
  {
    result := lhs;
    var i := 0;
    while i < |lhs|
      invariant 0 <= i <= |lhs| && |result| == |lhs|
      invariant forall j :: 0 <= j < i ==> result[j] == Apply(op, lhs[j], rhs[j])
      invariant forall j :: i <= j < |lhs| ==> result[j] == lhs[j]
    {
      result := result[i := Apply(op, result[i], rhs[i])];
      i := i + 1;
    }
  }

  /** Compound assignment with a scalar right operand, `lhs op= s`. */
  method CompoundAssignScalar(lhs: seq<real>, op: Op, s: real) returns (result: seq<real>)
    requires Defined(op, s)
    ensures result == CombineScalar(op, lhs, s)
  {
    result := CompoundAssign(lhs, op, Broadcast(|lhs|, s));
    ScalarFormIsBroadcast(op, lhs, s);
  }

  /** Dividing every cell by `d` is scaling by its reciprocal. */
  lemma DivisionIsReciprocalScaling(a: seq<real>, d: real)
    requires d != 0.0
    ensures CombineScalar(Over, a, d) == CombineScalar(Times, a, 1.0 / d)
  {
    forall i | 0 <= i < |a|
      ensures CombineScalar(Over, a, d)[i] == CombineScalar(Times, a, 1.0 / d)[i]
    {
      Reciprocal(a[i], d);
    }
  }

  lemma Reciprocal(x: real, d: real)
    requires d != 0.0
    ensures x / d == x * (1.0 / d)
  {
  }
}
