/**
 * The 3-vector helpers of include/vector_math.h.
 *
 * A `V3` is a C array of three doubles; here it is an `array<real>` of
 * length 3, and its contents are the value `v[..]`. The functions below are
 * the exact (real-number) meaning of each operation; the methods are the
 * header's in-place routines, which write their result into an
 * out-parameter array and are proved against those functions.
 */
module VectorMath {

  /** The contents of a V3. */
  type Vec = v: seq<real> | |v| == 3 witness [0.0, 0.0, 0.0]

  function Plus(u: Vec, v: Vec): Vec {
    [u[0] + v[0], u[1] + v[1], u[2] + v[2]]
  }

  function Minus(u: Vec, v: Vec): Vec {
    [u[0] - v[0], u[1] - v[1], u[2] - v[2]]
  }

  function Scaled(s: real, u: Vec): Vec {
    [s * u[0], s * u[1], s * u[2]]
  }

  /** v3_dot: the scalar product; that of a vector with itself is never negative. */
  function Dot(u: Vec, v: Vec): (r: real)
    ensures u == v ==> 0.0 <= r
  {
    u[0] * v[0] + u[1] * v[1] + u[2] * v[2]
  }

  /** The right-handed cross product. */
  function Cross(u: Vec, v: Vec): Vec {
    [u[1] * v[2] - u[2] * v[1],
     u[2] * v[0] - u[0] * v[2],
     u[0] * v[1] - u[1] * v[0]]
  }

  /**
   * What v3_cross leaves in `c` when `c` may be the same array as `a`
   * (`cIsA`) or `b` (`cIsB`): the three components are written in order, and
   * a later component reads an earlier one that has already been overwritten.
   */
  function CrossAsWritten(u: Vec, v: Vec, cIsA: bool, cIsB: bool): Vec {
    var c0 := u[1] * v[2] - u[2] * v[1];
    var u0 := if cIsA then c0 else u[0];
    var v0 := if cIsB then c0 else v[0];
    var c1 := u[2] * v0 - u0 * v[2];
    var u1 := if cIsA then c1 else u[1];
    var v1 := if cIsB then c1 else v[1];
    var c2 := u0 * v1 - u1 * v0;
    [c0, c1, c2]
  }

  /** v3_add: c := a + b, component by component. */
  method Add(a: array<real>, b: array<real>, c: array<real>)
    requires a.Length == 3 && b.Length == 3 && c.Length == 3
    modifies c
    ensures c[..] == Plus(old(a[..]), old(b[..]))
  {
    c[0] := a[0] + b[0];
    c[1] := a[1] + b[1];
    c[2] := a[2] + b[2];
  }

  /** v3_sub: c := a - b, component by component. */
  method Sub(a: array<real>, b: array<real>, c: array<real>)
    requires a.Length == 3 && b.Length == 3 && c.Length == 3
    modifies c
    ensures c[..] == Minus(old(a[..]), old(b[..]))
  {
    c[0] := a[0] - b[0];
    c[1] := a[1] - b[1];
    c[2] := a[2] - b[2];
  }

  /** v3_scale: b := s * a, component by component. */
  method Scale(a: array<real>, s: real, b: array<real>)
    requires a.Length == 3 && b.Length == 3
    modifies b
    ensures b[..] == Scaled(s, old(a[..]))
  {
    ghost var u: Vec := a[..];
    b[0] := s * a[0];
    assert a[1] == u[1] && a[2] == u[2];
    b[1] := s * a[1];
    assert a[2] == u[2];
    b[2] := s * a[2];
    ghost var r := Scaled(s, u);
    assert forall i :: 0 <= i < 3 ==> b[..][i] == r[i];
  }

  /** v3_cross: writes c[0], c[1], c[2] in that order from a and b. */
  method CrossInto(a: array<real>, b: array<real>, c: array<real>)
    requires a.Length == 3 && b.Length == 3 && c.Length == 3
    modifies c
    ensures c[..] == CrossAsWritten(old(a[..]), old(b[..]), c == a, c == b)
    ensures c != a && c != b ==> c[..] == Cross(old(a[..]), old(b[..]))
  {
    ghost var u: Vec, v: Vec := a[..], b[..];
    c[0] := a[1] * b[2] - a[2] * b[1];
    ghost var c0 := c[0];
    ghost var u0, v0 := if c == a then c0 else u[0], if c == b then c0 else v[0];
    assert c0 == u[1] * v[2] - u[2] * v[1];
    assert a[0] == u0 && a[2] == u[2] && b[0] == v0 && b[2] == v[2];
    c[1] := a[2] * b[0] - a[0] * b[2];
    ghost var c1 := c[1];
    assert c1 == u[2] * v0 - u0 * v[2];
    ghost var u1, v1 := if c == a then c1 else u[1], if c == b then c1 else v[1];
    assert a[0] == u0 && a[1] == u1 && b[0] == v0 && b[1] == v1;
    c[2] := a[0] * b[1] - a[1] * b[0];
    assert c[2] == u0 * v1 - u1 * v0;
    assert c[0] == c0 && c[1] == c1;
    CrossStepwise(u, v, c == a, c == b, c[..]);
    CrossAsWrittenWithoutAliasing(u, v);
  }

  /** The three sequential writes of v3_cross yield CrossAsWritten. */
  lemma CrossStepwise(u: Vec, v: Vec, cIsA: bool, cIsB: bool, c: Vec)
    requires c[0] == u[1] * v[2] - u[2] * v[1]
    requires c[1] == u[2] * (if cIsB then c[0] else v[0]) - (if cIsA then c[0] else u[0]) * v[2]
    requires c[2] == (if cIsA then c[0] else u[0]) * (if cIsB then c[1] else v[1])
                   - (if cIsA then c[1] else u[1]) * (if cIsB then c[0] else v[0])
    ensures c == CrossAsWritten(u, v, cIsA, cIsB)
  {
    var r := CrossAsWritten(u, v, cIsA, cIsB);
    assert forall i :: 0 <= i < 3 ==> c[i] == r[i];
  }

  /** Subtraction undoes addition. */
  lemma MinusUndoesPlus(u: Vec, v: Vec)
    ensures Minus(Plus(u, v), v) == u
  {
  }

  /** Scaling distributes over addition. */
  lemma ScaledDistributes(s: real, u: Vec, v: Vec)
    ensures Scaled(s, Plus(u, v)) == Plus(Scaled(s, u), Scaled(s, v))
  {
    var l, r := Scaled(s, Plus(u, v)), Plus(Scaled(s, u), Scaled(s, v));
    assert forall i :: 0 <= i < 3 ==> l[i] == r[i];
  }

  lemma DotSymmetric(u: Vec, v: Vec)
    ensures Dot(u, v) == Dot(v, u)
  {
  }

  /** The dot product is linear in its first argument. */
  lemma DotLinear(s: real, u: Vec, v: Vec, w: Vec)
    ensures Dot(Plus(Scaled(s, u), v), w) == s * Dot(u, w) + Dot(v, w)
  {
  }

  /** Over exact arithmetic the cross product is orthogonal to both inputs. */
  lemma CrossOrthogonal(u: Vec, v: Vec)
    ensures Dot(u, Cross(u, v)) == 0.0
    ensures Dot(v, Cross(u, v)) == 0.0
  {
  }

  lemma CrossAntisymmetric(u: Vec, v: Vec)
    ensures Cross(v, u) == Scaled(-1.0, Cross(u, v))
  {
  }

  /** Writing into a third array gives exactly the cross product. */
  lemma CrossAsWrittenWithoutAliasing(u: Vec, v: Vec)
    ensures CrossAsWritten(u, v, false, false) == Cross(u, v)
  {
  }

  /**
   * When `c` is `a`, c[0] is overwritten before line 44 reads a[0], so the
   * second and third components go wrong: cross((1,2,3),(4,5,6)) written
   * over the first argument gives (-3,30,-135) instead of (-3,6,-3).
   */
  lemma CrossOverFirstArgumentIsWrong()
    ensures CrossAsWritten([1.0, 2.0, 3.0], [4.0, 5.0, 6.0], true, false) == [-3.0, 30.0, -135.0]
    ensures CrossAsWritten([1.0, 2.0, 3.0], [4.0, 5.0, 6.0], true, false) != Cross([1.0, 2.0, 3.0], [4.0, 5.0, 6.0])
  {
  }

  /** Writing over the second argument goes wrong as well. */
  lemma CrossOverSecondArgumentIsWrong()
    ensures CrossAsWritten([1.0, 2.0, 3.0], [4.0, 5.0, 6.0], false, true) != Cross([1.0, 2.0, 3.0], [4.0, 5.0, 6.0])
  {
  }

  /** The worked example of `example()`: cross and dot of (1,2,3), (4,5,6). */
  method Example() returns (cross: seq<real>, dot: real)
    ensures cross == [-3.0, 6.0, -3.0]
    ensures dot == 32.0
  {
    var data1 := new real[3];
    data1[0], data1[1], data1[2] := 1.0, 2.0, 3.0;
    var data2 := new real[3];
    data2[0], data2[1], data2[2] := 4.0, 5.0, 6.0;
    var result := new real[3];
    CrossInto(data1, data2, result);
    cross := result[..];
    dot := Dot(data1[..], data2[..]);
  }
}
