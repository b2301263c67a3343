/**
 * 4x4 matrices over the reals, indexed by (row, column) the way the aligner
 * indexes its `matrix4` values. Storage is row-major: entry (i, j) lives at
 * position 4 * i + j of a sequence of sixteen reals.
 */
module Matrices {

  type Mat4 = m: seq<real> | |m| == 16 witness seq(16, _ => 0.0)

  predicate InRange(i: int, j: int) {
    0 <= i < 4 && 0 <= j < 4
  }

  function At(m: Mat4, i: int, j: int): real
    requires InRange(i, j)
  {
    m[4 * i + j]
  }

  lemma IndexSplit(i: int, j: int)
    requires InRange(i, j)
    ensures (4 * i + j) / 4 == i && (4 * i + j) % 4 == j
  {
  }

  /** Two matrices with the same entries are the same matrix. */
  lemma Extensionality(a: Mat4, b: Mat4)
    requires forall i, j | InRange(i, j) :: At(a, i, j) == At(b, i, j)
    ensures a == b
  {
    forall k | 0 <= k < 16
      ensures a[k] == b[k]
    {
      assert At(a, k / 4, k % 4) == At(b, k / 4, k % 4);
    }
  }

  /** Extensionality with the sixteen entries spelled out. */
  lemma EqualEntries(a: Mat4, b: Mat4)
    requires At(a, 0, 0) == At(b, 0, 0) && At(a, 0, 1) == At(b, 0, 1) && At(a, 0, 2) == At(b, 0, 2) && At(a, 0, 3) == At(b, 0, 3) && At(a, 1, 0) == At(b, 1, 0) && At(a, 1, 1) == At(b, 1, 1) && At(a, 1, 2) == At(b, 1, 2) && At(a, 1, 3) == At(b, 1, 3) && At(a, 2, 0) == At(b, 2, 0) && At(a, 2, 1) == At(b, 2, 1) && At(a, 2, 2) == At(b, 2, 2) && At(a, 2, 3) == At(b, 2, 3) && At(a, 3, 0) == At(b, 3, 0) && At(a, 3, 1) == At(b, 3, 1) && At(a, 3, 2) == At(b, 3, 2) && At(a, 3, 3) == At(b, 3, 3)
    ensures a == b
  {
    forall k | 0 <= k < 16
      ensures a[k] == b[k]
    {
      if k == 0 {} else if k == 1 {} else if k == 2 {} else if k == 3 {} else if k == 4 {} else if k == 5 {} else if k == 6 {} else if k == 7 {} else if k == 8 {} else if k == 9 {} else if k == 10 {} else if k == 11 {} else if k == 12 {} else if k == 13 {} else if k == 14 {} else {}
    }
  }

  /** `m(i, j) = v`: writes one entry and keeps all others. */
  function Set(m: Mat4, i: int, j: int, v: real): (r: Mat4)
    requires InRange(i, j)
    ensures At(r, i, j) == v
    ensures forall p, q | InRange(p, q) && (p, q) != (i, j) :: At(r, p, q) == At(m, p, q)
  {
    m[4 * i + j := v]
  }

  function IdentityEntry(i: int, j: int): real {
    if i == j then 1.0 else 0.0
  }

  /** The matrix whose entry (i, j) is e(i, j). */
  function Tabulate(e: (int, int) -> real): Mat4 {
    seq(16, k requires 0 <= k < 16 => e(k / 4, k % 4))
  }

  lemma TabulateAt(e: (int, int) -> real, i: int, j: int)
    requires InRange(i, j)
    ensures At(Tabulate(e), i, j) == e(i, j)
  {
    IndexSplit(i, j);
  }

  /** `matrix4::identity()`. */
  function Identity(): Mat4 {
    Tabulate(IdentityEntry)
  }

  lemma IdentityAt(i: int, j: int)
    requires InRange(i, j)
    ensures At(Identity(), i, j) == IdentityEntry(i, j)
  {
    TabulateAt(IdentityEntry, i, j);
  }

  /** Row i of a times column j of b. */
  function Dot(a: Mat4, b: Mat4, i: int, j: int): real
    requires InRange(i, j)
  {
    At(a, i, 0) * At(b, 0, j) + At(a, i, 1) * At(b, 1, j)
      + At(a, i, 2) * At(b, 2, j) + At(a, i, 3) * At(b, 3, j)
  }

  /** The matrix product `a * b`. */
  function Mul(a: Mat4, b: Mat4): Mat4 {
    Tabulate((i, j) => if InRange(i, j) then Dot(a, b, i, j) else 0.0)
  }

  lemma MulAt(a: Mat4, b: Mat4, i: int, j: int)
    requires InRange(i, j)
    ensures At(Mul(a, b), i, j) == Dot(a, b, i, j)
  {
    TabulateAt((i, j) => if InRange(i, j) then Dot(a, b, i, j) else 0.0, i, j);
  }
}
