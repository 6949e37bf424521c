/**
 * The part of the Dyon runtime that the vec4 embedding touches: the tagged
 * `Variable` and the runtime's ability to describe a type mismatch.
 */
module Dyon {
  import opened Scalars

  /**
   * A runtime value. Only the vec4 discriminant is looked into; every other
   * discriminant stands for the runtime's remaining kinds of value.
   */
  datatype Variable =
    | Vec4(v: F32x4)
    | Other(kind: string)

  /**
   * The runtime, reduced to `Runtime::expected`: given the variable that was
   * found and the label of the kind that was wanted, it renders the error
   * message. How it renders it belongs to the runtime.
   */
  datatype Runtime = Runtime(expected: (Variable, string) -> string)
}
