# Colour metric tensors

A Dafny model of the metric-tensor constructors of the colourspace package
(`colour/tensor.py`). Each constructor takes N colour points and returns a
tensor record: the colour space the tensors are expressed in, and an N×3×3
buffer holding one 3×3 metric tensor per point. Tensor i depends only on
point i. The three rules are:

- **Euclidean** (`euclidean`, and `dE_ab`/`dE_uv`, which fix the space to
  CIELAB and CIELUV): every tensor is the identity.
- **Poincaré disk** (`poincare_disk`): `G[0,0] = 1` and
  `G[1,1] = G[2,2] = 4/(1 − x² − y²)²`, where x and y are coordinates 1 and 2.
- **CIEDE2000** (`dE_00`): the weighting functions S_L, S_C, T, S_h, R_C, Δθ
  and R_T of the CIEDE2000 colour-difference formula (CIE 142-2001) fill the
  diagonal and the symmetric chroma–hue cross term `[1,2]`/`[2,1]`.

Files:

- `Numerics.dfy`: the numeric functions the source calls. `sqrt`, `exp`,
  `cos`, `sin` and π are fields of a `Transcendentals` value that the caller
  supplies. Only the facts in `Axioms` are assumed about them:
  π > 0, `sqrt(0) = 0`, `sqrt(x) > 0` for x > 0, and `−1 ≤ cos ≤ 1`.
  This module also defines `deg2rad`, `rad2deg`, `**2`, `**7` and `**(-2)`,
  plus small lemmas about real arithmetic.
- `Space.dfy`: the colour-space tags, the point type and `EmptyMatrix`, a
  freshly allocated N×3×3 buffer whose contents its contract leaves unspecified.
- `Data.dfy`: the `TensorData` record of (space tag, tensor buffer).
- `Tensor.dfy`: the constructors, the per-point formulas and their lemmas.

The buffer is a Dafny `array3<real>`. The entries a constructor writes into the
slice of one point are described by an `Entries` map from (row, column) to value.
`Holds(g, i, e)` says slice i carries those entries. Entries a constructor does
not write keep whatever `EmptyMatrix` left there, and the model says nothing
about them. `ZeroFilled(e)` is the full matrix the entries would give in a
zero-initialised slice. Full-matrix symmetry and the quadratic forms are proved
only about this zero-filled matrix: that zero initialisation is an assumption.

The `dE_00` slice assignments `g[:, j, k] = …` are written as `AssignColumn`,
a parallel `forall` assignment of one value per point. The `for` loops of
`euclidean` and `poincare_disk` stay loops.

The CIEDE2000 formula wraps each hue angle into [0, 360) element-wise. Line
108 as written does not (see Findings). `MaskedWrapAsWritten` models the line
as written; `DE00` uses the element-wise wrap.

## Model

| member | source | states |
|---|---|---|
| `Space.EmptyMatrix` | colour/tensor.py:143 | a fresh buffer of exactly one 3×3 slice per point; nothing about its contents |
| `Tensor.Euclidean` | colour/tensor.py:46-49 | the result is anchored at the given space, has one tensor per point, and every tensor is the 3×3 identity whatever the coordinates |
| `Tensor.DEab` | colour/tensor.py:65 | the Euclidean result anchored at CIELAB: N identity tensors |
| `Tensor.DEuv` | colour/tensor.py:81 | the Euclidean result anchored at CIELUV: N identity tensors |
| `Tensor.EuclideanPositiveDefinite` | colour/tensor.py:48 | the identity tensor is symmetric; its quadratic form is the squared norm, positive for every nonzero differential |
| `Tensor.PoincareScale` | colour/tensor.py:146-147 | `4/(1 − x² − y²)²` is defined off the unit circle and positive there |
| `Tensor.PoincareEntries` | colour/tensor.py:145-147 | exactly the entries [0,0], [1,1] and [2,2] are written; [0,0] = 1 and [1,1] = [2,2] > 0 |
| `Tensor.PoincareDisk` | colour/tensor.py:142-148 | the result is anchored at the given space and has one tensor per point; slice i carries the Poincaré entries of point i; requires every point off the unit circle, where the source divides by zero |
| `Tensor.PoincareCentre` | colour/tensor.py:145-147 | at (x, y) = (0, 0) the written diagonal is exactly (1, 4, 4) |
| `Tensor.PoincareInsideDisk` | colour/tensor.py:146-147 | strictly inside the unit disk G[1,1] and G[2,2] are at least 4 |
| `Tensor.PoincarePositiveDefinite` | colour/tensor.py:144-147 | inside the disk the zero-filled tensor is symmetric, and its form is positive for every nonzero differential |
| `Tensor.WrapHue` | colour/tensor.py:108 | a negative hue angle gets 360 added and any other is kept; an angle in [−360, 360) ends in [0, 360) |
| `Tensor.WrappedHues` | colour/tensor.py:107-108 | the element-wise wrap keeps the length and wraps each angle on its own |
| `Tensor.WrapNegativeHues` | colour/tensor.py:108 | after the in-place masked update the array is the element-wise wrap of its old contents |
| `Tensor.MaskedWrapAsWritten` | colour/tensor.py:108 | line 108 as written under NumPy's mask-assignment rule; when it raises, the error names N values against the number of negative hues, and N > 1 |
| `Tensor.CountNegative` | colour/tensor.py:108 | the number of positions the mask `h_deg < 0` selects is at most N |
| `Tensor.CountNegativeAll` | colour/tensor.py:108 | the mask selects every position exactly when every hue is negative |
| `Tensor.MaskedWrapAsWrittenAgrees` | colour/tensor.py:108 | the as-written assignment succeeds exactly when N ≤ 1 or every hue is negative, and then equals the element-wise wrap |
| `Tensor.MaskedWrapCounterexample` | colour/tensor.py:108 | for hues (10°, −20°) the as-written assignment raises, while the element-wise wrap gives (10°, 340°) |
| `Tensor.SL` | colour/tensor.py:109 | S_L ≥ 1 for every lightness, and S_L = 1 at L = 50 |
| `Tensor.SC` | colour/tensor.py:110 | S_C ≥ 1 for non-negative chroma, S_C = 1 at C = 0, and S_C = 1.9 at C = 20 |
| `Tensor.T` | colour/tensor.py:111-114 | with cosines anywhere in [−1, 1], T lies in [0.07, 1.93]; the second harmonic uses the radian hue h and the others use the degree hue |
| `Tensor.SH` | colour/tensor.py:115 | S_h ≥ 1 for non-negative chroma, and S_h = 1 at C = 0 |
| `Tensor.RC` | colour/tensor.py:116 | R_C = 0 at C = 0, and R_C ≥ 0 for non-negative chroma |
| `Tensor.RT` | colour/tensor.py:117-118 | R_T = −R_C·sin(2Δθ) is 0 at C = 0, whatever sine and exp return; Δθ (`d_theta`, line 117) is the helper `DeltaTheta`, which carries no contract of its own |
| `Tensor.G00` | colour/tensor.py:120 | G[0,0] = (k_L·S_L)⁻² is positive wherever it is defined |
| `Tensor.G11` | colour/tensor.py:121 | G[1,1] = (k_C·S_C)⁻² is positive wherever it is defined |
| `Tensor.G22` | colour/tensor.py:122 | G[2,2] = C²·(k_h·S_h)⁻² is non-negative, and zero exactly when C = 0 |
| `Tensor.G12` | colour/tensor.py:123-124 | the cross term 0.5·C·R_T/(k_C·S_C·k_h·S_h) is zero at C = 0 |
| `Tensor.DE00Entries` | colour/tensor.py:120-124 | exactly the entries [0,0], [1,1], [2,2], [1,2] and [2,1] are written, from G00, G11, G22 and G12 (twice), evaluated at the point's wrapped degree hue (the helper `HueDegrees`, lines 107-108) |
| `Tensor.DE00` | colour/tensor.py:103-125 | the result is anchored at the CIEDE2000 LCh space and has one tensor per point; slice i carries the CIEDE2000 entries of point i, computed with its wrapped degree hue |
| `Tensor.AssignColumn` | colour/tensor.py:120-124 | a slice assignment `g[:, j, k] = vals` sets entry (j, k) of each slice to its point's value and changes nothing else |
| `Tensor.FillDE00` | colour/tensor.py:119-124 | after the five slice assignments, every slice carries the CIEDE2000 entries of its point, and the four entries no assignment writes keep their previous values |
| `Tensor.DE00Symmetric` | colour/tensor.py:123-124 | G[1,2] = G[2,1], so the zero-filled CIEDE2000 tensor is symmetric |
| `Tensor.DE00DefinedForNonNegativeChroma` | colour/tensor.py:109-124 | with positive k_L, k_C, k_h and non-negative chroma, every denominator is nonzero; G[0,0] > 0, G[1,1] > 0 and G[2,2] ≥ 0 |
| `Tensor.DE00Achromatic` | colour/tensor.py:115-124 | at C = 0 the tensor is defined for any nonzero weights; G[2,2] = G[1,2] = G[2,1] = 0 whatever the trigonometric functions return, and G[1,1] = k_C⁻² |
| `Tensor.DE00ReferencePoint` | colour/tensor.py:109-121 | at L = 50, C = 20 with default weights and any hue, the tensor is defined, G[0,0] = 1 and G[1,1] = 1/1.9² (≈ 0.2770) |
| `Tensor.DE00MidLightness` | colour/tensor.py:109-120 | wherever the tensor is defined, L = 50 with k_L = 1 gives G[0,0] = 1, whatever the chroma, hue and other weights |
| `Tensor.DE00ChromaTwenty` | colour/tensor.py:110-121 | wherever the tensor is defined, C = 20 with k_C = 1 gives G[1,1] = 1/1.9², whatever the lightness, hue and other weights |

## Left out

- Re-expressing a tensor field in another space is not modelled: the Jacobian congruence transform behind `TensorData.get`. It lives in `data.py`, which is not part of this model. The record keeps only the space tag and the tensor buffer, not the `Data` object.
- Colour conversion is not modelled: `get_linear`, `linear_XYZ`, the `space` objects and their Jacobians. Points arrive already expressed in the space each constructor reads.
- The constructors name three colour spaces: `cielab`, `cieluv` and `ciede00lch` (colour/tensor.py:65, 81, 103). `XYZ` has its own tag because `test()` re-expresses tensors in it, but no member uses that tag. Every other space is collapsed into one `Other(name)` tag.
- Floating point is not modelled: all arithmetic is over the reals. NumPy's inf/nan results from a division by zero are not modelled.
- `sqrt`, `exp`, `cos`, `sin` and π are parameters. Only the facts listed in `Axioms` are assumed about them, and their numeric values are never used.
- `Tensor.PoincareDisk`: requires every point off the unit circle x² + y² = 1. On that circle NumPy would produce inf instead of failing.
- `Tensor.DE00`: does not raise the ValueError that line 108 raises when there is more than one point and the hues are of mixed sign. It wraps each hue element-wise instead, as the CIEDE2000 formula intends. `Tensor.MaskedWrapAsWritten` models that line as it stands.
- `Tensor.DE00`: requires every denominator to be nonzero at every point, instead of producing inf/nan as NumPy would. `Tensor.DE00DefinedForNonNegativeChroma` shows that positive weights and non-negative chroma meet this requirement.
- Positive definiteness of the CIEDE2000 tensor is not modelled. It depends on the numeric range of R_T and of the trigonometric values, which the code does not promise.
- Entries that `poincare_disk` and `dE_00` do not write are unspecified in the buffer. Full-matrix symmetry and quadratic forms hold only on the assumption that the buffer starts as zeros (`ZeroFilled`).
- The `test()` report (colour/tensor.py:167-182) is not modelled, except for the shape property: every constructor's contract gives one 3×3 tensor per point. The TODO list (colour/tensor.py:150-161) is not modelled either.

## Findings

| source | as written | input that shows it | evidently intended | confidence | as-written member | corrected member |
|---|---|---|---|---|---|---|
| colour/tensor.py:108 | `h_deg[h_deg < 0] = h_deg + 360` assigns the full N-element array through a mask that selects only the negative hues. NumPy accepts this only when the value array has one element or exactly one per selected position, so with N > 1 points it raises unless every hue is negative | two points with hues 10° and −20°: two values for one selected position | each negative hue raised by 360 in place, the others kept, giving 10° and 340° | not executed; follows current NumPy's boolean-mask assignment rule. Older releases may instead have filled the selected positions with the leading values (giving 10° and 370°), which is also not the intended wrap | `Tensor.MaskedWrapAsWritten`, shown by `Tensor.MaskedWrapCounterexample` and `Tensor.MaskedWrapAsWrittenAgrees` | `Tensor.WrapNegativeHues` (element-wise `Tensor.WrapHue`), used by `Tensor.DE00` |
