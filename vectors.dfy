/** Unity's `Vector3`, with its float components modelled as exact reals, and
    the operations the steering rules use. Square roots never appear: a
    length is compared through its square. `normalized` and `Slerp` are not
    interpreted; they are carried as function values with the laws the model
    relies on. */
module Vectors {
  import opened Lists

  datatype Vec3 = Vec3(x: real, y: real, z: real)

  /** `Vector3.zero`. */
  const Zero: Vec3 := Vec3(0.0, 0.0, 0.0)

  function Add(a: Vec3, b: Vec3): Vec3 { Vec3(a.x + b.x, a.y + b.y, a.z + b.z) }

  function Sub(a: Vec3, b: Vec3): Vec3 { Vec3(a.x - b.x, a.y - b.y, a.z - b.z) }

  lemma AddSwap(p: Vec3, q: Vec3, r: Vec3)
    ensures Add(Add(p, q), r) == Add(Add(p, r), q)
  {}

  lemma SubZero(a: Vec3, b: Vec3)
    ensures Sub(a, b) == Zero <==> a == b
  {}

  /** `v * k`. */
  function Scale(v: Vec3, k: real): Vec3 { Vec3(v.x * k, v.y * k, v.z * k) }

  /** `v / k`, undefined when `k` is zero. */
  function Div(v: Vec3, k: real): Vec3
    requires k != 0.0
  {
    Vec3(v.x / k, v.y / k, v.z / k)
  }

  function Dot(a: Vec3, b: Vec3): real { a.x * b.x + a.y * b.y + a.z * b.z }

  /** `v.sqrMagnitude`, the squared length `|v|²`. */
  function SqMagnitude(v: Vec3): real { Dot(v, v) }

  lemma ProductPositive(p: real, q: real)
    requires 0.0 < p && 0.0 < q
    ensures 0.0 < p * q
  {}

  /** Squaring is strictly monotone on non-negative reals. */
  lemma SquareMonotone(a: real, b: real)
    requires 0.0 <= a < b
    ensures a * a < b * b
  {
    ProductPositive(b - a, b + a);
    assert b * b - a * a == (b - a) * (b + a);
  }

  /** `v.magnitude < d`, stated without the square root. */
  predicate Shorter(v: Vec3, d: real) { 0.0 < d && SqMagnitude(v) < d * d }

  /** `v.magnitude <= d`, stated without the square root. */
  predicate NoLonger(v: Vec3, d: real) { 0.0 <= d && SqMagnitude(v) <= d * d }

  /** For the true length `m` of `v` (the non-negative root of its squared
      length), `Shorter` and `NoLonger` are exactly `m < d` and `m <= d`. */
  lemma MagnitudeComparisons(v: Vec3, d: real, m: real)
    requires 0.0 <= m && m * m == SqMagnitude(v)
    ensures Shorter(v, d) <==> m < d
    ensures NoLonger(v, d) <==> m <= d
  {
    if 0.0 <= d {
      if m < d {
        SquareMonotone(m, d);
      } else if d < m {
        SquareMonotone(d, m);
      }
    }
  }

  /** A vector along the x axis is shorter than `d` when its one
      component is. */
  lemma AxisShorter(v: Vec3, d: real)
    requires v.y == 0.0 && v.z == 0.0 && -d < v.x < d
    ensures Shorter(v, d)
  {
    var a := if v.x < 0.0 then -v.x else v.x;
    assert SqMagnitude(v) == a * a;
    SquareMonotone(a, d);
  }

  /** The floating-point primitives the rules call but the model does not
      compute: `v.normalized` and `Vector3.Slerp(from, to, t)`. */
  datatype Numerics = Numerics(normalize: Vec3 -> Vec3, slerp: (Vec3, Vec3, real) -> Vec3)

  /** `normalized` keeps the direction of a non-zero vector: the result is
      a positive multiple of it. */
  ghost predicate KeepsDirection(n: Numerics, v: Vec3) {
    v != Zero ==> 0.0 < Dot(n.normalize(v), v)
  }

  /** `normalized` divides a non-zero vector by its (positive) length. */
  ghost predicate Parallel(n: Numerics, v: Vec3) {
    v != Zero ==> exists k: real :: 0.0 < k && n.normalize(v) == Scale(v, k)
  }

  /** `normalized` turns a non-zero vector into one of length 1. */
  ghost predicate UnitLength(n: Numerics, v: Vec3) {
    v != Zero ==> SqMagnitude(n.normalize(v)) == 1.0
  }

  /** The laws assumed of `normalized`: the zero vector stays zero, and any
      other vector becomes a unit vector in its own direction (the first law
      on direction follows from the second; it is stated on its own because
      it is the form the rules' lemmas use). */
  ghost predicate Lawful(n: Numerics) {
    n.normalize(Zero) == Zero &&
    (forall v :: KeepsDirection(n, v)) &&
    (forall v :: Parallel(n, v)) &&
    (forall v :: UnitLength(n, v))
  }

  /** Scaling multiplies the squared length by the square of the factor. */
  lemma ScaleSqMagnitude(v: Vec3, k: real)
    ensures SqMagnitude(Scale(v, k)) == k * k * SqMagnitude(v)
  {
    assert (v.x * k) * (v.x * k) == k * k * (v.x * v.x);
    assert (v.y * k) * (v.y * k) == k * k * (v.y * v.y);
    assert (v.z * k) * (v.z * k) == k * k * (v.z * v.z);
  }

  /** A non-zero factor maps only the zero vector to zero. */
  lemma ScaleZero(v: Vec3, k: real)
    requires k != 0.0
    ensures Scale(v, k) == Zero <==> v == Zero
  {
    if Scale(v, k) == Zero {
      assert v.x == v.x * k / k;
      assert v.y == v.y * k / k;
      assert v.z == v.z * k / k;
    }
  }

  /** Under the laws, `normalized` gives either the zero vector (from the
      zero vector) or a unit vector, never anything else. */
  lemma NormalizedIsUnitOrZero(n: Numerics, v: Vec3)
    requires Lawful(n)
    ensures n.normalize(v) == Zero <==> v == Zero
    ensures v != Zero ==> SqMagnitude(n.normalize(v)) == 1.0
  {
    assert UnitLength(n, v);
    if v != Zero {
      assert SqMagnitude(Zero) == 0.0;
    }
  }

  /** A normalized non-zero vector scaled by a positive weight points the same
      way as the vector it came from. */
  lemma WeightedDirection(n: Numerics, v: Vec3, k: real)
    requires Lawful(n) && v != Zero && 0.0 < k
    ensures 0.0 < Dot(Scale(n.normalize(v), k), v)
    ensures Scale(n.normalize(v), k) != Zero
  {
    var u := n.normalize(v);
    assert KeepsDirection(n, v);
    assert Dot(Scale(u, k), v) == k * Dot(u, v);
    ProductPositive(k, Dot(u, v));
  }

  /** For a vector along the x axis, the weighted normalized vector keeps
      the sign of its x component. */
  lemma AxisDirection(n: Numerics, v: Vec3, k: real)
    requires Lawful(n) && 0.0 < k
    requires v.x != 0.0 && v.y == 0.0 && v.z == 0.0
    ensures v.x < 0.0 ==> Scale(n.normalize(v), k).x < 0.0
    ensures 0.0 < v.x ==> 0.0 < Scale(n.normalize(v), k).x
  {
    var r := Scale(n.normalize(v), k);
    WeightedDirection(n, v, k);
    assert Dot(r, v) == r.x * v.x;
    if v.x < 0.0 && 0.0 < r.x {
      ProductPositive(r.x, -v.x);
    }
    if 0.0 < v.x && r.x < 0.0 {
      ProductPositive(-r.x, v.x);
    }
  }

  /** Normalizing a vector along the positive x axis gives the x unit
      vector. */
  lemma AxisNormalized(n: Numerics, a: real)
    requires Lawful(n) && 0.0 < a
    ensures n.normalize(Vec3(a, 0.0, 0.0)) == Vec3(1.0, 0.0, 0.0)
  {
    var v := Vec3(a, 0.0, 0.0);
    assert Parallel(n, v) && UnitLength(n, v);
    var c: real :| 0.0 < c && n.normalize(v) == Scale(v, c);
    var b := a * c;
    ProductPositive(a, c);
    assert n.normalize(v) == Vec3(b, 0.0, 0.0);
    assert SqMagnitude(Vec3(b, 0.0, 0.0)) == b * b;
    if b < 1.0 {
      SquareMonotone(b, 1.0);
    } else if 1.0 < b {
      SquareMonotone(1.0, b);
    }
  }

  /** The sum `term(s[0]) + ... + term(s[|s|-1])`, accumulated from the left
      as a `foreach` loop adds to a `Vector3.zero` accumulator. */
  function Sum<T>(s: seq<T>, term: T -> Vec3): Vec3
    decreases |s|
  {
    if s == [] then Zero else Add(Sum(s[..|s| - 1], term), term(s[|s| - 1]))
  }

  lemma {:induction false} SumConcat<T>(s: seq<T>, t: seq<T>, term: T -> Vec3)
    ensures Sum(s + t, term) == Add(Sum(s, term), Sum(t, term))
    decreases |t|
  {
    if t == [] {
      assert s + t == s;
    } else {
      var t' := t[..|t| - 1];
      assert (s + t)[..|s + t| - 1] == s + t';
      SumConcat(s, t', term);
    }
  }

  lemma SumSingle<T>(x: T, term: T -> Vec3)
    ensures Sum([x], term) == term(x)
  {
    assert [x][..0] == [];
  }

  /** The term of one element in the middle can be taken out of a sum. */
  lemma SumSplit<T>(s: seq<T>, before: seq<T>, x: T, after: seq<T>, term: T -> Vec3)
    requires s == before + [x] + after
    ensures Sum(s, term) == Add(Sum(before + after, term), term(x))
  {
    SumConcat(before + [x], after, term);
    SumConcat(before, [x], term);
    SumConcat(before, after, term);
    SumSingle(x, term);
    AddSwap(Sum(before, term), term(x), Sum(after, term));
  }

  /** Taking one element out of the list takes its term out of the sum. */
  lemma SumRemoveFirst<T>(s: seq<T>, x: T, term: T -> Vec3)
    requires x in s
    ensures Sum(s, term) == Add(Sum(RemoveFirst(s, x), term), term(x))
  {
    var i := FirstIndex(s, x);
    SliceAround(s, i);
    SumSplit(s, s[..i], x, s[i + 1..], term);
  }

  /** The sum depends on the multiset of the list only, not on its order. */
  lemma {:induction false} SumPermutation<T>(s: seq<T>, t: seq<T>, term: T -> Vec3)
    requires multiset(s) == multiset(t)
    ensures Sum(s, term) == Sum(t, term)
    decreases |s|
  {
    if s == [] {
      assert |t| == |multiset(t)| == 0;
    } else {
      var s', x := s[..|s| - 1], s[|s| - 1];
      assert s == s' + [x];
      assert x in multiset(t);
      SumRemoveFirst(t, x, term);
      assert multiset(s') == multiset(s) - multiset{x};
      SumPermutation(s', RemoveFirst(t, x), term);
    }
  }
}
