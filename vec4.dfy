/**
 * `Vec4`: the four-slot float vector through which 2D, 3D and 4D vectors and
 * RGBA colours of the host are exchanged with the Dyon runtime.
 *
 * Widening (`From<shape> for Vec4`) copies the supplied components into the
 * leading slots, in order, and fills the slots a shorter shape does not supply
 * with 0.0. Narrowing (`From<Vec4> for shape`) keeps the leading slots and
 * drops the rest. Arrays are sequences of fixed length, tuples are tuples.
 */
module Vec4 {
  import opened Wrappers
  import opened Scalars
  import Dyon

  /** `pub struct Vec4(pub [f32; 4])`. */
  datatype Vec4 = Vec4(arr: F32x4)

  type F32x2 = s: seq<F32> | |s| == 2 witness [0.0, 0.0]
  type F32x3 = s: seq<F32> | |s| == 3 witness [0.0, 0.0, 0.0]
  type F64x2 = s: seq<F64> | |s| == 2 witness [0.0, 0.0]
  type F64x3 = s: seq<F64> | |s| == 3 witness [0.0, 0.0, 0.0]
  type F64x4 = s: seq<F64> | |s| == 4 witness [0.0, 0.0, 0.0, 0.0]
  type U32x2 = s: seq<U32> | |s| == 2 witness [0, 0]
  type U8x4 = s: seq<U8> | |s| == 4 witness [0, 0, 0, 0]

  // ---------------------------------------------------------------------------
  // The widening policy

  /** The four slots holding `s` in its leading positions, the rest 0.0. */
  function ZeroFilled(s: seq<F32>): (slots: F32x4)
    requires |s| <= 4
    ensures slots[..|s|] == s
    ensures forall i :: |s| <= i < 4 ==> slots[i] == 0.0
  {
    s + seq(4 - |s|, _ => 0.0)
  }

  /** `f64::from` on an f32: exact, so the value is unchanged. */
  function Promote(x: F32): (y: F64)
    ensures y == x
  {
    x
  }

  // ---------------------------------------------------------------------------
  // ConvertVec4

  /** `ConvertVec4::from`: agrees with `From<[f32; 4]>`. */
  function ConvertFrom(val: F32x4): (v: Vec4)
    ensures v == FromF32Array4(val)
  {
    Vec4(val)
  }

  /** `ConvertVec4::to`: converting the result back gives `self`. */
  function ConvertTo(self: Vec4): (a: F32x4)
    ensures ConvertFrom(a) == self
  {
    self.arr
  }

  /** `ConvertVec4::from` and `ConvertVec4::to` undo each other. */
  lemma ConvertInverse(val: F32x4, self: Vec4)
    ensures ConvertTo(ConvertFrom(val)) == val
    ensures ConvertFrom(ConvertTo(self)) == self
    ensures ConvertFrom(val) == FromF32Array4(val)
  {
  }

  // ---------------------------------------------------------------------------
  // The runtime bridge

  /**
   * `PopVariable::pop_var`: a vec4 variable gives its payload; any other
   * variable gives the runtime's "expected vec4" message and no value.
   */
  function PopVar(rt: Dyon.Runtime, v: Dyon.Variable): (r: Result<Vec4, string>)
    ensures r.Ok? <==> v.Vec4?
    ensures r.Ok? ==> PushVar(r.value) == v
    ensures r.Err? ==> r.error == rt.expected(v, "vec4")
  {
    if v.Vec4? then Ok(Vec4(v.v)) else Err(rt.expected(v, "vec4"))
  }

  /** `PushVariable::push_var`: tag the payload as a vec4 variable. */
  function PushVar(self: Vec4): (r: Dyon.Variable)
    ensures r.Vec4? && Vec4(r.v) == self
  {
    Dyon.Variable.Vec4(self.arr)
  }

  /**
   * Popping succeeds with `x` exactly on the variable that pushing `x` makes,
   * so pop undoes push and push is injective.
   */
  lemma PopPushInverse(rt: Dyon.Runtime, v: Dyon.Variable, x: Vec4)
    ensures PopVar(rt, PushVar(x)) == Ok(x)
    ensures PopVar(rt, v) == Ok(x) <==> v == PushVar(x)
  {
  }

  // ---------------------------------------------------------------------------
  // Widening: float arrays

  function FromF32Array2(val: F32x2): (v: Vec4)
    ensures v.arr == ZeroFilled(val)
  {
    Vec4([val[0], val[1], 0.0, 0.0])
  }

  function FromF32Array3(val: F32x3): (v: Vec4)
    ensures v.arr == ZeroFilled(val)
  {
    Vec4([val[0], val[1], val[2], 0.0])
  }

  function FromF32Array4(val: F32x4): (v: Vec4)
    ensures v.arr == val
  {
    Vec4([val[0], val[1], val[2], val[3]])
  }

  function FromF64Array2(c: NumericCasts, val: F64x2): (v: Vec4)
    ensures v.arr == ZeroFilled(CastEach(c.f64ToF32, val))
  {
    Vec4([c.f64ToF32(val[0]), c.f64ToF32(val[1]), 0.0, 0.0])
  }

  function FromF64Array3(c: NumericCasts, val: F64x3): (v: Vec4)
    ensures v.arr == ZeroFilled(CastEach(c.f64ToF32, val))
  {
    Vec4([c.f64ToF32(val[0]), c.f64ToF32(val[1]), c.f64ToF32(val[2]), 0.0])
  }

  function FromF64Array4(c: NumericCasts, val: F64x4): (v: Vec4)
    ensures v.arr == CastEach(c.f64ToF32, val)
  {
    Vec4([c.f64ToF32(val[0]), c.f64ToF32(val[1]), c.f64ToF32(val[2]), c.f64ToF32(val[3])])
  }

  // ---------------------------------------------------------------------------
  // Widening: float tuples

  function FromF32Tuple2(val: (F32, F32)): (v: Vec4)
    ensures v.arr == ZeroFilled([val.0, val.1])
  {
    Vec4([val.0, val.1, 0.0, 0.0])
  }

  function FromF32Tuple3(val: (F32, F32, F32)): (v: Vec4)
    ensures v.arr == ZeroFilled([val.0, val.1, val.2])
  {
    Vec4([val.0, val.1, val.2, 0.0])
  }

  function FromF32Tuple4(val: (F32, F32, F32, F32)): (v: Vec4)
    ensures ToF32Tuple4(v) == val
  {
    Vec4([val.0, val.1, val.2, val.3])
  }

  function FromF64Tuple2(c: NumericCasts, val: (F64, F64)): (v: Vec4)
    ensures v.arr == ZeroFilled(CastEach(c.f64ToF32, [val.0, val.1]))
  {
    Vec4([c.f64ToF32(val.0), c.f64ToF32(val.1), 0.0, 0.0])
  }

  function FromF64Tuple3(c: NumericCasts, val: (F64, F64, F64)): (v: Vec4)
    ensures v.arr == ZeroFilled(CastEach(c.f64ToF32, [val.0, val.1, val.2]))
  {
    Vec4([c.f64ToF32(val.0), c.f64ToF32(val.1), c.f64ToF32(val.2), 0.0])
  }

  function FromF64Tuple4(c: NumericCasts, val: (F64, F64, F64, F64)): (v: Vec4)
    ensures v.arr == CastEach(c.f64ToF32, [val.0, val.1, val.2, val.3])
  {
    Vec4([c.f64ToF32(val.0), c.f64ToF32(val.1), c.f64ToF32(val.2), c.f64ToF32(val.3)])
  }

  // ---------------------------------------------------------------------------
  // Widening: integer pairs (cast, not scaled) and colours (scaled per channel)

  function FromU32Array2(c: NumericCasts, val: U32x2): (v: Vec4)
    ensures v.arr == ZeroFilled(CastEach(c.u32ToF32, val))
  {
    Vec4([c.u32ToF32(val[0]), c.u32ToF32(val[1]), 0.0, 0.0])
  }

  function FromU32Tuple2(c: NumericCasts, val: (U32, U32)): (v: Vec4)
    ensures v.arr == ZeroFilled(CastEach(c.u32ToF32, [val.0, val.1]))
  {
    Vec4([c.u32ToF32(val.0), c.u32ToF32(val.1), 0.0, 0.0])
  }

  function FromU8Array4(c: NumericCasts, val: U8x4): (v: Vec4)
    ensures v.arr == CastEach(c.byteToUnit, val)
  {
    Vec4([c.byteToUnit(val[0]), c.byteToUnit(val[1]), c.byteToUnit(val[2]), c.byteToUnit(val[3])])
  }

  function FromU8Tuple4(c: NumericCasts, val: (U8, U8, U8, U8)): (v: Vec4)
    ensures v.arr == CastEach(c.byteToUnit, [val.0, val.1, val.2, val.3])
  {
    Vec4([c.byteToUnit(val.0), c.byteToUnit(val.1), c.byteToUnit(val.2), c.byteToUnit(val.3)])
  }

  // ---------------------------------------------------------------------------
  // Narrowing: float arrays

  function ToF32Array2(val: Vec4): (a: F32x2)
    ensures a == val.arr[..2]
  {
    [val.arr[0], val.arr[1]]
  }

  function ToF32Array3(val: Vec4): (a: F32x3)
    ensures a == val.arr[..3]
  {
    [val.arr[0], val.arr[1], val.arr[2]]
  }

  function ToF32Array4(val: Vec4): (a: F32x4)
    ensures FromF32Array4(a) == val
  {
    val.arr
  }

  function ToF64Array2(val: Vec4): (a: F64x2)
    ensures a == val.arr[..2]
  {
    [Promote(val.arr[0]), Promote(val.arr[1])]
  }

  function ToF64Array3(val: Vec4): (a: F64x3)
    ensures a == val.arr[..3]
  {
    [Promote(val.arr[0]), Promote(val.arr[1]), Promote(val.arr[2])]
  }

  function ToF64Array4(val: Vec4): (a: F64x4)
    ensures a == val.arr
  {
    [Promote(val.arr[0]), Promote(val.arr[1]), Promote(val.arr[2]), Promote(val.arr[3])]
  }

  // ---------------------------------------------------------------------------
  // Narrowing: float tuples

  function ToF32Tuple2(val: Vec4): (t: (F32, F32))
    ensures [t.0, t.1] == val.arr[..2]
  {
    (val.arr[0], val.arr[1])
  }

  function ToF32Tuple3(val: Vec4): (t: (F32, F32, F32))
    ensures [t.0, t.1, t.2] == val.arr[..3]
  {
    (val.arr[0], val.arr[1], val.arr[2])
  }

  function ToF32Tuple4(val: Vec4): (t: (F32, F32, F32, F32))
    ensures [t.0, t.1, t.2, t.3] == val.arr
  {
    (val.arr[0], val.arr[1], val.arr[2], val.arr[3])
  }

  function ToF64Tuple2(val: Vec4): (t: (F64, F64))
    ensures [t.0, t.1] == val.arr[..2]
  {
    (Promote(val.arr[0]), Promote(val.arr[1]))
  }

  function ToF64Tuple3(val: Vec4): (t: (F64, F64, F64))
    ensures [t.0, t.1, t.2] == val.arr[..3]
  {
    (Promote(val.arr[0]), Promote(val.arr[1]), Promote(val.arr[2]))
  }

  function ToF64Tuple4(val: Vec4): (t: (F64, F64, F64, F64))
    ensures [t.0, t.1, t.2, t.3] == val.arr
  {
    (Promote(val.arr[0]), Promote(val.arr[1]), Promote(val.arr[2]), Promote(val.arr[3]))
  }

  // ---------------------------------------------------------------------------
  // Narrowing: integer pairs (truncating cast) and colours (scaled per channel)

  function ToU32Array2(c: NumericCasts, val: Vec4): (a: U32x2)
    ensures a == CastEach(c.f32ToU32, val.arr[..2])
  {
    [c.f32ToU32(val.arr[0]), c.f32ToU32(val.arr[1])]
  }

  function ToU32Tuple2(c: NumericCasts, val: Vec4): (t: (U32, U32))
    ensures [t.0, t.1] == CastEach(c.f32ToU32, val.arr[..2])
  {
    (c.f32ToU32(val.arr[0]), c.f32ToU32(val.arr[1]))
  }

  function ToU8Tuple4(c: NumericCasts, val: Vec4): (t: (U8, U8, U8, U8))
    ensures [t.0, t.1, t.2, t.3] == CastEach(c.unitToByte, val.arr)
  {
    (c.unitToByte(val.arr[0]), c.unitToByte(val.arr[1]), c.unitToByte(val.arr[2]), c.unitToByte(val.arr[3]))
  }

  function ToU8Array4(c: NumericCasts, val: Vec4): (a: U8x4)
    ensures a == CastEach(c.unitToByte, val.arr)
  {
    [c.unitToByte(val.arr[0]), c.unitToByte(val.arr[1]), c.unitToByte(val.arr[2]), c.unitToByte(val.arr[3])]
  }

  // ---------------------------------------------------------------------------
  // Properties relating the conversions

  /** Narrowing an f32 array back to its own length after widening it returns the input. */
  lemma F32ArraysRoundTrip(a2: F32x2, a3: F32x3, a4: F32x4)
    ensures ToF32Array2(FromF32Array2(a2)) == a2
    ensures ToF32Array3(FromF32Array3(a3)) == a3
    ensures ToF32Array4(FromF32Array4(a4)) == a4
  {
  }

  /** Narrowing an f32 tuple back to its own length after widening it returns the input. */
  lemma F32TuplesRoundTrip(t2: (F32, F32), t3: (F32, F32, F32), t4: (F32, F32, F32, F32))
    ensures ToF32Tuple2(FromF32Tuple2(t2)) == t2
    ensures ToF32Tuple3(FromF32Tuple3(t3)) == t3
    ensures ToF32Tuple4(FromF32Tuple4(t4)) == t4
  {
  }

  /**
   * An f64 array comes back through a `Vec4` changed only by the f64-to-f32
   * cast of the widening step: promotion back to f64 loses nothing more.
   */
  lemma F64ArraysRoundTrip(c: NumericCasts, a2: F64x2, a3: F64x3, a4: F64x4)
    ensures ToF64Array2(FromF64Array2(c, a2)) == CastEach(c.f64ToF32, a2)
    ensures ToF64Array3(FromF64Array3(c, a3)) == CastEach(c.f64ToF32, a3)
    ensures ToF64Array4(FromF64Array4(c, a4)) == CastEach(c.f64ToF32, a4)
  {
  }

  /** Integer pairs and colours come back through a `Vec4` as the two casts composed, channel by channel. */
  lemma IntegerShapesRoundTrip(c: NumericCasts, p: U32x2, rgba: U8x4)
    ensures ToU32Array2(c, FromU32Array2(c, p)) == CastEach(x => c.f32ToU32(c.u32ToF32(x)), p)
    ensures ToU8Array4(c, FromU8Array4(c, rgba)) == CastEach(b => c.unitToByte(c.byteToUnit(b)), rgba)
  {
  }

  /** The zero-filled slots are there to be seen when the full four slots are read back. */
  lemma ZeroFillObserved(c: NumericCasts, a2: F32x2, a3: F32x3, p: U32x2)
    ensures ToF32Array4(FromF32Array2(a2)) == a2 + [0.0, 0.0]
    ensures ToF32Array4(FromF32Array3(a3)) == a3 + [0.0]
    ensures ToF32Array4(FromU32Array2(c, p)) == [c.u32ToF32(p[0]), c.u32ToF32(p[1]), 0.0, 0.0]
  {
  }

  /**
   * Narrowing depends only on the slots it keeps: two vectors that agree on the
   * leading slots narrow to the same value, whatever their trailing slots hold.
   */
  lemma NarrowingDropsTrailing(c: NumericCasts, v: Vec4, w: Vec4)
    ensures v.arr[..2] == w.arr[..2] ==>
      ToF32Array2(v) == ToF32Array2(w) && ToF64Array2(v) == ToF64Array2(w) &&
      ToU32Array2(c, v) == ToU32Array2(c, w)
    ensures v.arr[..3] == w.arr[..3] ==> ToF32Array3(v) == ToF32Array3(w) && ToF64Array3(v) == ToF64Array3(w)
    ensures ToF32Array2(v) == ToF32Array3(v)[..2] == ToF32Array4(v)[..2]
  {
  }

  /** Array and tuple forms of an f32 shape convert identically in both directions. */
  lemma F32ShapesAgree(a2: F32x2, a3: F32x3, a4: F32x4, v: Vec4)
    ensures FromF32Tuple2((a2[0], a2[1])) == FromF32Array2(a2)
    ensures FromF32Tuple3((a3[0], a3[1], a3[2])) == FromF32Array3(a3)
    ensures FromF32Tuple4((a4[0], a4[1], a4[2], a4[3])) == FromF32Array4(a4)
    ensures ToF32Tuple2(v) == (ToF32Array2(v)[0], ToF32Array2(v)[1])
    ensures ToF32Tuple3(v) == (ToF32Array3(v)[0], ToF32Array3(v)[1], ToF32Array3(v)[2])
    ensures ToF32Tuple4(v) == (ToF32Array4(v)[0], ToF32Array4(v)[1], ToF32Array4(v)[2], ToF32Array4(v)[3])
  {
  }

  /** Array and tuple forms of an f64 shape convert identically in both directions. */
  lemma F64ShapesAgree(c: NumericCasts, a2: F64x2, a3: F64x3, a4: F64x4, v: Vec4)
    ensures FromF64Tuple2(c, (a2[0], a2[1])) == FromF64Array2(c, a2)
    ensures FromF64Tuple3(c, (a3[0], a3[1], a3[2])) == FromF64Array3(c, a3)
    ensures FromF64Tuple4(c, (a4[0], a4[1], a4[2], a4[3])) == FromF64Array4(c, a4)
    ensures ToF64Tuple2(v) == (ToF64Array2(v)[0], ToF64Array2(v)[1])
    ensures ToF64Tuple3(v) == (ToF64Array3(v)[0], ToF64Array3(v)[1], ToF64Array3(v)[2])
    ensures ToF64Tuple4(v) == (ToF64Array4(v)[0], ToF64Array4(v)[1], ToF64Array4(v)[2], ToF64Array4(v)[3])
  {
  }

  /** `[u32; 2]` and `(u32, u32)`, `[u8; 4]` and `(u8, u8, u8, u8)` convert identically in both directions. */
  lemma IntegerShapesAgree(c: NumericCasts, p: U32x2, rgba: U8x4, v: Vec4)
    ensures FromU32Tuple2(c, (p[0], p[1])) == FromU32Array2(c, p)
    ensures FromU8Tuple4(c, (rgba[0], rgba[1], rgba[2], rgba[3])) == FromU8Array4(c, rgba)
    ensures ToU32Tuple2(c, v) == (ToU32Array2(c, v)[0], ToU32Array2(c, v)[1])
    ensures ToU8Tuple4(c, v) ==
      (ToU8Array4(c, v)[0], ToU8Array4(c, v)[1], ToU8Array4(c, v)[2], ToU8Array4(c, v)[3])
  {
  }
}
