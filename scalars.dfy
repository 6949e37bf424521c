/**
 * The host's numeric component types and the casts between them.
 *
 * Components are modelled as mathematical reals. Widening an `f32` to an `f64`
 * is exact, so both widths share one representation and `f64::from` on an
 * `f32` is the identity. Every cast that may round, truncate or saturate is
 * left uninterpreted: it is a field of `NumericCasts`, supplied by the caller.
 */
module Scalars {

  /** A 32-bit float component. */
  type F32 = real

  /** A 64-bit float component. */
  type F64 = real

  type U8 = x: int | 0 <= x < 0x100

  type U32 = x: int | 0 <= x < 0x1_0000_0000

  /** `[f32; 4]`: the payload of a `Vec4` and of the runtime's vec4 variable. */
  type F32x4 = s: seq<F32> | |s| == 4 witness [0.0, 0.0, 0.0, 0.0]

  /**
   * The lossy casts of the host language, one per kind of conversion.
   * Their rounding and saturation behaviour is not modelled.
   */
  datatype NumericCasts = NumericCasts(
    f64ToF32: F64 -> F32,    // `x as f32` on an f64
    u32ToF32: U32 -> F32,    // `x as f32` on a u32
    f32ToU32: F32 -> U32,    // `x as u32` on an f32
    byteToUnit: U8 -> F32,   // `f32::from(b) / 255.0`: an 8-bit colour channel to 0.0..1.0
    unitToByte: F32 -> U8    // `(c * 255.0) as u8`: a 0.0..1.0 channel to 8 bits
  )

  /** Applies one cast to every component of a fixed-size value, keeping their order. */
  function CastEach<A, B>(cast: A -> B, s: seq<A>): (r: seq<B>)
    ensures |r| == |s|
    ensures forall i :: 0 <= i < |s| ==> r[i] == cast(s[i])
  {
    if s == [] then [] else [cast(s[0])] + CastEach(cast, s[1..])
  }
}
