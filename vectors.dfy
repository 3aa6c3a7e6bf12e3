/** Fixed-length real vectors, standing for vnl_vector_fixed<double, VDimension>. */
module Vectors {

  /** The template argument VDimension. The model fixes it at 3, the dimension of
      the particle domains; nothing proved below depends on the value. */
  const Dim: nat := 3

  type Vec = v: seq<real> | |v| == Dim witness [0.0, 0.0, 0.0]

  /** The vector every component of which is 0.0 (vnl's fill(0.0)). */
  function Zero(): Vec {
    seq(Dim, _ => 0.0)
  }

  /** Component-wise sum. */
  function Add(u: Vec, v: Vec): Vec {
    seq(Dim, i requires 0 <= i < Dim => u[i] + v[i])
  }

  /** Scalar multiple k * v. */
  function Scale(k: real, v: Vec): Vec {
    seq(Dim, i requires 0 <= i < Dim => k * v[i])
  }
}
