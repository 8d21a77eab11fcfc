/** The result record of every metric constructor: the space the tensors are
    expressed in and the N×3×3 tensor buffer, index-aligned with the points. */
module Data {
  import opened Space

  datatype TensorData = TensorData(space: ColourSpace, g: array3<real>)

  /** The buffer holds exactly n tensors of size 3×3. */
  predicate Shape(g: array3<real>, n: nat)
  {
    g.Length0 == n && g.Length1 == 3 && g.Length2 == 3
  }
}
