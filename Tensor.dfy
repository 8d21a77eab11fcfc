/** The colour metric tensor constructors of colour/tensor.py: the Euclidean
    metric (and its CIELAB and CIELUV instances), the CIEDE2000 metric and the
    Poincaré-disk metric. Each takes N points and returns N 3×3 tensors, tensor i
    computed from point i alone. */
module Tensor {
  import opened Numerics
  import opened Space
  import opened Data

  // ---------------------------------------------------------------------------
  // Tensor entries
  // ---------------------------------------------------------------------------

  /** The entries a constructor writes into the 3×3 slice of one point, keyed by
      (row, column). Entries not in the map keep whatever the buffer held. */
  type Entries = map<(nat, nat), real>

  /** Slice i of buffer g carries the entries e. */
  ghost predicate Holds(g: array3<real>, i: nat, e: Entries)
    reads g
    requires i < g.Length0 && g.Length1 == 3 && g.Length2 == 3
  {
    forall j: nat, k: nat :: j < 3 && k < 3 && (j, k) in e ==> g[i, j, k] == e[(j, k)]
  }

  /** The 3×3 identity matrix, `np.eye(3)`. */
  function Eye(j: nat, k: nat): real
  {
    if j == k then 1.0 else 0.0
  }

  /** The full matrix the entries e leave in a slice that held zeros before they
      were written. */
  function ZeroFilled(e: Entries): (nat, nat) -> real
  {
    (j: nat, k: nat) => if (j, k) in e then e[(j, k)] else 0.0
  }

  /** The quadratic form vᵗ·M·v of a 3×3 matrix M at a differential v. */
  function Form(m: (nat, nat) -> real, v: Point): real
  {
    m(0, 0) * Sq(v.c0) + m(0, 1) * (v.c0 * v.c1) + m(0, 2) * (v.c0 * v.c2) +
    m(1, 0) * (v.c1 * v.c0) + m(1, 1) * Sq(v.c1) + m(1, 2) * (v.c1 * v.c2) +
    m(2, 0) * (v.c2 * v.c0) + m(2, 1) * (v.c2 * v.c1) + m(2, 2) * Sq(v.c2)
  }

  ghost predicate Symmetric(m: (nat, nat) -> real)
  {
    forall j: nat, k: nat :: j < 3 && k < 3 ==> m(j, k) == m(k, j)
  }

  // ---------------------------------------------------------------------------
  // Euclidean metric
  // ---------------------------------------------------------------------------

  /** `euclidean`: one identity tensor per point, whatever the coordinates,
      anchored at the given space. */
  method Euclidean(sp: ColourSpace, pts: seq<Point>) returns (t: TensorData)
    ensures t.space == sp && fresh(t.g) && Shape(t.g, |pts|)
    ensures forall i, j, k :: 0 <= i < |pts| && 0 <= j < 3 && 0 <= k < 3 ==> t.g[i, j, k] == Eye(j, k)
  {
    var g := EmptyMatrix(pts);
    for i := 0 to g.Length0
      invariant forall i', j, k :: 0 <= i' < i && 0 <= j < 3 && 0 <= k < 3 ==> g[i', j, k] == Eye(j, k)
    {
      forall j, k | 0 <= j < 3 && 0 <= k < 3 {
        g[i, j, k] := Eye(j, k);
      }
    }
    t := TensorData(sp, g);
  }

  /** `dE_ab`: the Euclidean metric anchored at CIELAB. */
  method DEab(pts: seq<Point>) returns (t: TensorData)
    ensures t.space == CIELAB && fresh(t.g) && Shape(t.g, |pts|)
    ensures forall i, j, k :: 0 <= i < |pts| && 0 <= j < 3 && 0 <= k < 3 ==> t.g[i, j, k] == Eye(j, k)
  {
    t := Euclidean(CIELAB, pts);
  }

  /** `dE_uv`: the Euclidean metric anchored at CIELUV. */
  method DEuv(pts: seq<Point>) returns (t: TensorData)
    ensures t.space == CIELUV && fresh(t.g) && Shape(t.g, |pts|)
    ensures forall i, j, k :: 0 <= i < |pts| && 0 <= j < 3 && 0 <= k < 3 ==> t.g[i, j, k] == Eye(j, k)
  {
    t := Euclidean(CIELUV, pts);
  }

  /** The identity tensor is symmetric and its form is the squared Euclidean
      norm, positive for every nonzero differential. */
  lemma EuclideanPositiveDefinite(v: Point)
    ensures Symmetric(Eye)
    ensures Form(Eye, v) == Sq(v.c0) + Sq(v.c1) + Sq(v.c2)
    ensures v != Point(0.0, 0.0, 0.0) ==> Form(Eye, v) > 0.0
  {
    assert Form(Eye, v) == Sq(v.c0) + Sq(v.c1) + Sq(v.c2);
    WeightedSquaresPositive(1.0, v);
  }

  /** a² + s·b² + s·c² is non-negative for s > 0, and positive unless a = b = c = 0. */
  lemma WeightedSquaresPositive(s: real, v: Point)
    requires s > 0.0
    ensures Sq(v.c0) + s * Sq(v.c1) + s * Sq(v.c2) >= 0.0
    ensures v != Point(0.0, 0.0, 0.0) ==> Sq(v.c0) + s * Sq(v.c1) + s * Sq(v.c2) > 0.0
  {
    SqNonNegative(v.c0);
    SqNonNegative(v.c1);
    SqNonNegative(v.c2);
    ProductNonNegative(s, Sq(v.c1));
    ProductNonNegative(s, Sq(v.c2));
    if v.c0 != 0.0 {
      SqPositive(v.c0);
    } else if v.c1 != 0.0 {
      SqPositive(v.c1);
      ProductPositive(s, Sq(v.c1));
    } else if v.c2 != 0.0 {
      SqPositive(v.c2);
      ProductPositive(s, Sq(v.c2));
    }
  }

  // ---------------------------------------------------------------------------
  // Poincaré-disk metric
  // ---------------------------------------------------------------------------

  /** The scale factor is defined off the unit circle x² + y² = 1 of coordinates
      1 and 2, where the source divides by zero. */
  predicate OffBoundary(p: Point)
  {
    Sq(p.c1) + Sq(p.c2) != 1.0
  }

  predicate InsideDisk(p: Point)
  {
    Sq(p.c1) + Sq(p.c2) < 1.0
  }

  /** `4. / (1 - x**2 - y**2)**2`; positive wherever it is defined. */
  function PoincareScale(x: real, y: real): (s: real)
    requires Sq(x) + Sq(y) != 1.0
    ensures s > 0.0
  {
    SqPositive(1.0 - Sq(x) - Sq(y));
    QuotientPositive(4.0, Sq(1.0 - Sq(x) - Sq(y)));
    4.0 / Sq(1.0 - Sq(x) - Sq(y))
  }

  /** The entries `poincare_disk` writes for one point: G[0,0] = 1 and the two
      equal hyperbolic entries G[1,1], G[2,2] of the plane of coordinates 1 and 2. */
  function PoincareEntries(p: Point): (e: Entries)
    requires OffBoundary(p)
    ensures e.Keys == {(0, 0), (1, 1), (2, 2)}
    ensures e[(0, 0)] == 1.0 && e[(1, 1)] == e[(2, 2)] > 0.0
  {
    map[(0, 0) := 1.0,
        (1, 1) := PoincareScale(p.c1, p.c2),
        (2, 2) := PoincareScale(p.c1, p.c2)]
  }

  /** `poincare_disk`: one tensor per point, slice i carrying the entries
      computed from point i. */
  method PoincareDisk(sp: ColourSpace, pts: seq<Point>) returns (t: TensorData)
    requires forall i :: 0 <= i < |pts| ==> OffBoundary(pts[i])
    ensures t.space == sp && fresh(t.g) && Shape(t.g, |pts|)
    ensures forall i :: 0 <= i < |pts| ==> Holds(t.g, i, PoincareEntries(pts[i]))
  {
    var g := EmptyMatrix(pts);
    for i := 0 to g.Length0
      invariant forall i' :: 0 <= i' < i ==> Holds(g, i', PoincareEntries(pts[i']))
    {
      g[i, 0, 0] := 1.0;
      g[i, 1, 1] := PoincareScale(pts[i].c1, pts[i].c2);
      g[i, 2, 2] := PoincareScale(pts[i].c1, pts[i].c2);
    }
    t := TensorData(sp, g);
  }

  /** At the centre of the disk the tensor is diag(1, 4, 4). */
  lemma PoincareCentre(p: Point)
    requires p.c1 == 0.0 && p.c2 == 0.0
    ensures OffBoundary(p)
    ensures PoincareEntries(p) == map[(0, 0) := 1.0, (1, 1) := 4.0, (2, 2) := 4.0]
  {
  }

  /** Strictly inside the unit disk both hyperbolic entries are at least 4. */
  lemma PoincareInsideDisk(p: Point)
    requires InsideDisk(p)
    ensures OffBoundary(p)
    ensures PoincareEntries(p)[(1, 1)] >= 4.0 && PoincareEntries(p)[(2, 2)] >= 4.0
  {
    SqNonNegative(p.c1);
    SqNonNegative(p.c2);
    var d := 1.0 - Sq(p.c1) - Sq(p.c2);
    assert 0.0 < d <= 1.0;
    SqPositive(d);
    assert Sq(d) <= 1.0 by {
      assert d * d <= d * 1.0;
    }
    assert 4.0 / Sq(d) * Sq(d) == 4.0;
  }

  /** In a slice that held zeros, the Poincaré tensor is symmetric and, inside
      the disk, positive definite. */
  lemma PoincarePositiveDefinite(p: Point, v: Point)
    requires InsideDisk(p)
    ensures OffBoundary(p)
    ensures Symmetric(ZeroFilled(PoincareEntries(p)))
    ensures v != Point(0.0, 0.0, 0.0) ==> Form(ZeroFilled(PoincareEntries(p)), v) > 0.0
  {
    var e := PoincareEntries(p);
    var s := PoincareScale(p.c1, p.c2);
    assert Form(ZeroFilled(e), v) == Sq(v.c0) + s * Sq(v.c1) + s * Sq(v.c2);
    WeightedSquaresPositive(s, v);
  }

  // ---------------------------------------------------------------------------
  // CIEDE2000 metric: hue in degrees
  // ---------------------------------------------------------------------------

  /** The wrap of line 108: a negative hue angle gets 360 added, any other is kept. */
  function WrapHue(d: real): (r: real)
    ensures d >= 0.0 ==> r == d
    ensures d < 0.0 ==> r == d + 360.0
    ensures -360.0 <= d < 360.0 ==> 0.0 <= r < 360.0
  {
    if d < 0.0 then d + 360.0 else d
  }

  /** The element-wise wrap of a whole array of hue angles. */
  function WrappedHues(s: seq<real>): (r: seq<real>)
    ensures |r| == |s|
    ensures forall i :: 0 <= i < |s| ==> r[i] == WrapHue(s[i])
  {
    seq(|s|, i requires 0 <= i < |s| => WrapHue(s[i]))
  }

  /** The hue angle of a point in degrees, wrapped: `h_deg[i]`. */
  function HueDegrees(tr: Transcendentals, h: real): real
    requires Axioms(tr)
  {
    WrapHue(Rad2Deg(tr, h))
  }

  /** `h_deg[h_deg < 0] += 360`, element by element: every negative angle is
      raised by 360 in place, every other one is left as it was. */
  method WrapNegativeHues(hd: array<real>)
    modifies hd
    ensures hd[..] == WrappedHues(old(hd[..]))
  {
    forall i | 0 <= i < hd.Length && hd[i] < 0.0 {
      hd[i] := hd[i] + 360.0;
    }
  }

  /** What a NumPy boolean-mask assignment yields: the new array, or the error
      it raises when the value array has the wrong length. */
  datatype MaskError = ShapeMismatch(values: nat, targets: nat)

  datatype MaskResult = Assigned(hues: seq<real>) | Raised(error: MaskError)

  /** Line 108 as written, `h_deg[h_deg < 0] = h_deg + 360`, under NumPy's rule
      for assigning through a boolean mask: the value array, one element per
      point, must have one element or exactly one per selected position, and
      the k-th selected position receives the k-th value; any other length
      raises an error. */
  function MaskedWrapAsWritten(hd: seq<real>): (r: MaskResult)
    ensures r.Raised? ==> r.error == ShapeMismatch(|hd|, CountNegative(hd)) && |hd| > 1
  {
    if |hd| == CountNegative(hd) then Assigned(seq(|hd|, i requires 0 <= i < |hd| => hd[i] + 360.0))
    else if |hd| == 1 then Assigned(hd)
    else Raised(ShapeMismatch(|hd|, CountNegative(hd)))
  }

  /** The number of positions the mask `h_deg < 0` selects. */
  function CountNegative(s: seq<real>): (c: nat)
    ensures c <= |s|
  {
    if s == [] then 0 else (if s[0] < 0.0 then 1 else 0) + CountNegative(s[1..])
  }

  lemma {:induction false} CountNegativeAll(s: seq<real>)
    ensures CountNegative(s) == |s| <==> forall i :: 0 <= i < |s| ==> s[i] < 0.0
  {
    if s != [] {
      CountNegativeAll(s[1..]);
      assert forall i :: 1 <= i < |s| ==> s[i] == s[1..][i - 1];
    }
  }

  /** The assignment as written succeeds exactly when there is at most one point
      or every hue is negative, and then agrees with the element-wise wrap; on
      every other input it raises. */
  lemma MaskedWrapAsWrittenAgrees(hd: seq<real>)
    ensures MaskedWrapAsWritten(hd).Assigned? <==> (|hd| <= 1 || forall i :: 0 <= i < |hd| ==> hd[i] < 0.0)
    ensures MaskedWrapAsWritten(hd).Assigned? ==> MaskedWrapAsWritten(hd).hues == WrappedHues(hd)
  {
    CountNegativeAll(hd);
    if |hd| == 1 && CountNegative(hd) != 1 {
      assert !(hd[0] < 0.0);
    }
  }

  /** Two points, hues 10° and -20°: the assignment as written raises (two
      values for one selected position) where the element-wise wrap gives 10°
      and 340°. */
  lemma MaskedWrapCounterexample()
    ensures MaskedWrapAsWritten([10.0, -20.0]) == Raised(ShapeMismatch(2, 1))
    ensures WrappedHues([10.0, -20.0]) == [10.0, 340.0]
  {
  }

  // ---------------------------------------------------------------------------
  // CIEDE2000 metric: weighting functions of one point (L, C, h, h_deg)
  // ---------------------------------------------------------------------------

  /** The parametric factors k_L, k_C and k_h. */
  datatype Weights = Weights(kL: real, kC: real, kh: real)

  const DefaultWeights := Weights(1.0, 1.0, 1.0)

  /** S_L: at least 1 everywhere, exactly 1 at L = 50. */
  function SL(tr: Transcendentals, L: real): (s: real)
    requires Axioms(tr)
    ensures s >= 1.0
    ensures L == 50.0 ==> s == 1.0
  {
    SqNonNegative(L - 50.0);
    QuotientNonNegative(0.015 * Sq(L - 50.0), tr.sqrt(20.0 + Sq(L - 50.0)));
    1.0 + (0.015 * Sq(L - 50.0)) / tr.sqrt(20.0 + Sq(L - 50.0))
  }

  /** S_C: at least 1 for non-negative chroma; 1.9 at C = 20. */
  function SC(C: real): (s: real)
    ensures C >= 0.0 ==> s >= 1.0
    ensures C == 0.0 ==> s == 1.0
    ensures C == 20.0 ==> s == 1.9
  {
    1.0 + 0.045 * C
  }

  /** T, with the second harmonic taken of the radian hue h and the others of the
      degree hue h_deg. Whatever cosine returns in [-1, 1], T lies in [0.07, 1.93]. */
  function T(tr: Transcendentals, h: real, hd: real): (t: real)
    requires Axioms(tr)
    ensures 0.07 <= t <= 1.93
  {
    1.0 - 0.17 * tr.cos(Deg2Rad(tr, hd - 30.0))
        + 0.24 * tr.cos(2.0 * h)
        + 0.32 * tr.cos(Deg2Rad(tr, 3.0 * hd + 6.0))
        - 0.2 * tr.cos(Deg2Rad(tr, 4.0 * hd - 63.0))
  }

  /** S_h: at least 1 for non-negative chroma, exactly 1 at C = 0. */
  function SH(tr: Transcendentals, C: real, h: real, hd: real): (s: real)
    requires Axioms(tr)
    ensures C >= 0.0 ==> s >= 1.0
    ensures C == 0.0 ==> s == 1.0
  {
    if C >= 0.0 then ProductNonNegative(C, T(tr, h, hd)); 1.0 + 0.015 * C * T(tr, h, hd)
    else 1.0 + 0.015 * C * T(tr, h, hd)
  }

  /** R_C: zero at C = 0, non-negative for non-negative chroma. */
  function RC(tr: Transcendentals, C: real): (r: real)
    requires Axioms(tr) && Pow7(C) + Pow7(25.0) != 0.0
    ensures C == 0.0 ==> r == 0.0
    ensures C >= 0.0 ==> r >= 0.0
  {
    if C >= 0.0 then
      Pow7NonNegative(C);
      assert Pow7(25.0) > 0.0;
      QuotientNonNegative(Pow7(C), Pow7(C) + Pow7(25.0));
      SqrtNonNegative(tr, Pow7(C) / (Pow7(C) + Pow7(25.0)));
      2.0 * tr.sqrt(Pow7(C) / (Pow7(C) + Pow7(25.0)))
    else
      2.0 * tr.sqrt(Pow7(C) / (Pow7(C) + Pow7(25.0)))
  }

  /** Δθ, in degrees. */
  function DeltaTheta(tr: Transcendentals, hd: real): real
  {
    30.0 * tr.exp(-Sq((hd - 275.0) / 25.0))
  }

  /** R_T = -R_C·sin(2Δθ): zero at C = 0 whatever sine returns. */
  function RT(tr: Transcendentals, C: real, hd: real): (r: real)
    requires Axioms(tr) && Pow7(C) + Pow7(25.0) != 0.0
    ensures C == 0.0 ==> r == 0.0
  {
    -RC(tr, C) * tr.sin(Deg2Rad(tr, 2.0 * DeltaTheta(tr, hd)))
  }

  // ---------------------------------------------------------------------------
  // CIEDE2000 metric: the tensor of one point
  // ---------------------------------------------------------------------------

  /** Every denominator of the per-point formulas is nonzero at p (with h_deg the
      wrapped degree hue of p); the source does not guard these divisions. */
  ghost predicate Defined(tr: Transcendentals, k: Weights, p: Point)
    requires Axioms(tr)
  {
    && k.kL * SL(tr, p.c0) != 0.0
    && k.kC * SC(p.c1) != 0.0
    && k.kh * SH(tr, p.c1, p.c2, HueDegrees(tr, p.c2)) != 0.0
    && Pow7(p.c1) + Pow7(25.0) != 0.0
  }

  /** G[0,0] = (k_L·S_L)^-2 */
  function G00(tr: Transcendentals, k: Weights, L: real): (r: real)
    requires Axioms(tr) && k.kL * SL(tr, L) != 0.0
    ensures r > 0.0
  {
    InvSquare(k.kL * SL(tr, L))
  }

  /** G[1,1] = (k_C·S_C)^-2 */
  function G11(k: Weights, C: real): (r: real)
    requires k.kC * SC(C) != 0.0
    ensures r > 0.0
  {
    InvSquare(k.kC * SC(C))
  }

  /** G[2,2] = C²·(k_h·S_h)^-2 */
  function G22(tr: Transcendentals, k: Weights, C: real, h: real, hd: real): (r: real)
    requires Axioms(tr) && k.kh * SH(tr, C, h, hd) != 0.0
    ensures r >= 0.0
    ensures r == 0.0 <==> C == 0.0
  {
    SqNonNegative(C);
    if C != 0.0 then
      SqPositive(C);
      ProductPositive(Sq(C), InvSquare(k.kh * SH(tr, C, h, hd)));
      Sq(C) * InvSquare(k.kh * SH(tr, C, h, hd))
    else
      Sq(C) * InvSquare(k.kh * SH(tr, C, h, hd))
  }

  /** G[1,2] and G[2,1], both written from this one expression:
      0.5·C·R_T / (k_C·S_C·k_h·S_h). */
  function G12(tr: Transcendentals, k: Weights, C: real, h: real, hd: real): (r: real)
    requires Axioms(tr) && Pow7(C) + Pow7(25.0) != 0.0
    requires k.kC * SC(C) != 0.0 && k.kh * SH(tr, C, h, hd) != 0.0
    ensures C == 0.0 ==> r == 0.0
  {
    ProductNonZero(k.kC * SC(C), k.kh * SH(tr, C, h, hd));
    0.5 * C * RT(tr, C, hd) / (k.kC * SC(C) * k.kh * SH(tr, C, h, hd))
  }

  /** The entries `dE_00` writes for one point: the three diagonal entries and
      the chroma-hue cross term, twice. */
  function DE00Entries(tr: Transcendentals, k: Weights, p: Point): (e: Entries)
    requires Axioms(tr) && Defined(tr, k, p)
    ensures e.Keys == {(0, 0), (1, 1), (2, 2), (1, 2), (2, 1)}
  {
    var hd := HueDegrees(tr, p.c2);
    map[(0, 0) := G00(tr, k, p.c0),
        (1, 1) := G11(k, p.c1),
        (2, 2) := G22(tr, k, p.c1, p.c2, hd),
        (1, 2) := G12(tr, k, p.c1, p.c2, hd),
        (2, 1) := G12(tr, k, p.c1, p.c2, hd)]
  }

  /** `dE_00`: one tensor per point, anchored at the CIEDE2000 LCh space. The
      hue angles are converted to degrees and wrapped first; then the buffer is
      filled. */
  method DE00(tr: Transcendentals, lch: seq<Point>, k: Weights) returns (t: TensorData)
    requires Axioms(tr)
    requires forall i :: 0 <= i < |lch| ==> Defined(tr, k, lch[i])
    ensures t.space == CIEDE00LCh && fresh(t.g) && Shape(t.g, |lch|)
    ensures forall i :: 0 <= i < |lch| ==> Holds(t.g, i, DE00Entries(tr, k, lch[i]))
  {
    var hd := new real[|lch|];
    forall i | 0 <= i < |lch| {
      hd[i] := Rad2Deg(tr, lch[i].c2);
    }
    WrapNegativeHues(hd);
    var g := EmptyMatrix(lch);
    FillDE00(tr, k, lch, hd[..], g);
    t := TensorData(CIEDE00LCh, g);
  }

  /** `g[:, j, k] = vals`: entry (j, k) of every slice gets the value of its
      point, and nothing else changes. */
  method AssignColumn(g: array3<real>, j: nat, k: nat, vals: seq<real>)
    requires j < 3 && k < 3 && g.Length1 == 3 && g.Length2 == 3 && |vals| == g.Length0
    modifies g
    ensures forall i :: 0 <= i < g.Length0 ==> g[i, j, k] == vals[i]
    ensures forall i, j', k' :: 0 <= i < g.Length0 && 0 <= j' < 3 && 0 <= k' < 3 && (j', k') != (j, k) ==>
              g[i, j', k'] == old(g[i, j', k'])
  {
    forall i | 0 <= i < g.Length0 {
      g[i, j, k] := vals[i];
    }
  }

  /** The five slice assignments of `dE_00`, each writing one entry for all
      points at once; hd holds the wrapped degree hues. */
  method FillDE00(tr: Transcendentals, k: Weights, lch: seq<Point>, hd: seq<real>, g: array3<real>)
    requires Axioms(tr) && Shape(g, |lch|) && |hd| == |lch|
    requires forall i :: 0 <= i < |lch| ==> hd[i] == HueDegrees(tr, lch[i].c2) && Defined(tr, k, lch[i])
    modifies g
    ensures forall i :: 0 <= i < |lch| ==> Holds(g, i, DE00Entries(tr, k, lch[i]))
    ensures forall i, j, k' ::
              (0 <= i < |lch| && 0 <= j < 3 && 0 <= k' < 3 && (j, k') !in {(0, 0), (1, 1), (2, 2), (1, 2), (2, 1)})
              ==> g[i, j, k'] == old(g[i, j, k'])
  {
    var n := |lch|;
    var g00 := seq(n, i requires 0 <= i < n => G00(tr, k, lch[i].c0));
    var g11 := seq(n, i requires 0 <= i < n => G11(k, lch[i].c1));
    var g22 := seq(n, i requires 0 <= i < n => G22(tr, k, lch[i].c1, lch[i].c2, hd[i]));
    var g12 := seq(n, i requires 0 <= i < n => G12(tr, k, lch[i].c1, lch[i].c2, hd[i]));
    AssignColumn(g, 0, 0, g00);
    AssignColumn(g, 1, 1, g11);
    AssignColumn(g, 2, 2, g22);
    AssignColumn(g, 1, 2, g12);
    AssignColumn(g, 2, 1, g12);
    forall i | 0 <= i < n
      ensures Holds(g, i, DE00Entries(tr, k, lch[i]))
    {
      assert g[i, 0, 0] == g00[i] && g[i, 1, 1] == g11[i] && g[i, 2, 2] == g22[i];
      assert g[i, 1, 2] == g12[i] && g[i, 2, 1] == g12[i];
    }
  }

  /** The two cross-term entries are equal, so in a slice that held zeros the
      CIEDE2000 tensor is symmetric. */
  lemma DE00Symmetric(tr: Transcendentals, k: Weights, p: Point)
    requires Axioms(tr) && Defined(tr, k, p)
    ensures DE00Entries(tr, k, p)[(1, 2)] == DE00Entries(tr, k, p)[(2, 1)]
    ensures Symmetric(ZeroFilled(DE00Entries(tr, k, p)))
  {
  }

  /** For positive weights and non-negative chroma every denominator is nonzero,
      the lightness and chroma entries are positive and the hue entry is
      non-negative. */
  lemma DE00DefinedForNonNegativeChroma(tr: Transcendentals, k: Weights, p: Point)
    requires Axioms(tr)
    requires k.kL > 0.0 && k.kC > 0.0 && k.kh > 0.0 && p.c1 >= 0.0
    ensures Defined(tr, k, p)
    ensures DE00Entries(tr, k, p)[(0, 0)] > 0.0
    ensures DE00Entries(tr, k, p)[(1, 1)] > 0.0
    ensures DE00Entries(tr, k, p)[(2, 2)] >= 0.0
  {
  }

  /** At an achromatic point (C = 0) the hue entry and both cross terms vanish,
      whatever the trigonometric functions return, and the chroma entry is k_C^-2. */
  lemma DE00Achromatic(tr: Transcendentals, k: Weights, p: Point)
    requires Axioms(tr)
    requires k.kL != 0.0 && k.kC != 0.0 && k.kh != 0.0 && p.c1 == 0.0
    ensures Defined(tr, k, p)
    ensures DE00Entries(tr, k, p)[(2, 2)] == 0.0
    ensures DE00Entries(tr, k, p)[(1, 2)] == 0.0 && DE00Entries(tr, k, p)[(2, 1)] == 0.0
    ensures DE00Entries(tr, k, p)[(1, 1)] == InvSquare(k.kC)
  {
  }

  /** The reference point L = 50, C = 20 with the default weights, at any hue:
      G[0,0] = 1 and G[1,1] = 1/1.9². */
  lemma DE00ReferencePoint(tr: Transcendentals, p: Point)
    requires Axioms(tr) && p.c0 == 50.0 && p.c1 == 20.0
    ensures Defined(tr, DefaultWeights, p)
    ensures DE00Entries(tr, DefaultWeights, p)[(0, 0)] == 1.0
    ensures DE00Entries(tr, DefaultWeights, p)[(1, 1)] == 1.0 / (1.9 * 1.9)
  {
  }

  /** Wherever the tensor is defined, mid-grey lightness (L = 50) with k_L = 1
      gives G[0,0] = 1, whatever the chroma, hue and other weights. */
  lemma DE00MidLightness(tr: Transcendentals, k: Weights, p: Point)
    requires Axioms(tr) && Defined(tr, k, p) && p.c0 == 50.0 && k.kL == 1.0
    ensures DE00Entries(tr, k, p)[(0, 0)] == 1.0
  {
  }

  /** Wherever the tensor is defined, chroma C = 20 with k_C = 1 gives
      G[1,1] = 1/1.9², whatever the lightness, hue and other weights. */
  lemma DE00ChromaTwenty(tr: Transcendentals, k: Weights, p: Point)
    requires Axioms(tr) && Defined(tr, k, p) && p.c1 == 20.0 && k.kC == 1.0
    ensures DE00Entries(tr, k, p)[(1, 1)] == 1.0 / (1.9 * 1.9)
  {
  }
}
