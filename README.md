# Dyon `Vec4` embedding and I/O diagnostics, modelled in Dafny

This project models two small, stateless pieces of the Dyon scripting
language's embedding layer:

- `Vec4` (`src/vec4.rs`): the four-slot `f32` vector through which host
  2D, 3D and 4D vectors and RGBA colours pass to and from the runtime. The
  model covers every `From` conversion into and out of `Vec4`,
  `ConvertVec4::{from, to}`, `PopVariable::pop_var` and
  `PushVariable::push_var`.
- `io_error` (`src/dyon_std/io.rs`): the message built when an I/O action on
  a file fails. The message has the action, the file and the error on its
  first line, and the error's cause, if any, on its second line.

Files:

- `wrappers.dfy`: `Option` and `Result`.
- `scalars.dfy`: the component types and `NumericCasts`, which holds the
  host's lossy casts as functions the caller supplies. It also holds
  `CastEach`, which applies one cast to each component in order.
- `dyon.dfy`: the runtime's tagged `Variable` and `Runtime`. `Runtime` is
  reduced to its `expected` message renderer.
- `vec4.dfy`: `Vec4`, its conversions, the runtime bridge, and the lemmas
  that relate them.
- `io.dfy`: `io_error` and its layout and line-break lemmas.

Representation choices:

- A component is a `real`. `f32` and `f64` share this representation. This
  works because `f64::from` on an `f32` is exact, so it is the identity here.
- Rust arrays `[T; N]` are sequences constrained to length `N`. Rust tuples
  are Dafny tuples.
- A Rust `&str` or `String` is a Dafny `string`, a sequence of characters.
  The offsets in `Io.MessageLayout` and `Io.BreakAt` therefore count
  characters, where Rust string lengths count UTF-8 bytes. The order of the
  pieces and the counts of `'\n'` are the same under either measure.
- Each cast that can round, truncate or saturate is left uninterpreted:
  `f64 as f32`, `u32 as f32`, `f32 as u32`, and the colour scaling in both
  directions. The contracts therefore state which slot each component goes
  to, the zero fill, and the cast applied to each component. They never
  state a numeric value that a cast produces.

## Model

| member | source | states |
|---|---|---|
| `Vec4.ZeroFilled` | src/vec4.rs:33-43 | the widening policy: the supplied components fill the leading slots in order, and every later slot up to four is 0.0 |
| `Scalars.CastEach` | src/vec4.rs:63-67 | a per-component cast keeps the length, and component `i` of the result is the cast of component `i` of the input |
| `Vec4.Promote` | src/vec4.rs:157-161 | `f64::from` on an f32 is exact: the value is unchanged |
| `Vec4.ConvertFrom` | src/vec4.rs:9-11 | `ConvertVec4::from` gives the same `Vec4` as `From<[f32; 4]>`; `ConvertInverse` proves `to` undoes it |
| `Vec4.ConvertTo` | src/vec4.rs:12-14 | converting the result of `ConvertVec4::to` back with `from` gives the original `Vec4` |
| `Vec4.ConvertInverse` | src/vec4.rs:8-15 | `ConvertVec4::from` and `to` are mutual inverses on `[f32; 4]`, and `from` agrees with `From<[f32; 4]>` |
| `Vec4.PopVar` | src/vec4.rs:17-24 | pop succeeds exactly when the variable carries the vec4 tag, and pushing the popped value gives back that variable; otherwise the error is the runtime's message for the variable and the label "vec4" |
| `Vec4.PushVar` | src/vec4.rs:27-31 | the variable carries the vec4 tag and its payload is the vector's four slots; `PopPushInverse` proves pop undoes it |
| `Vec4.PopPushInverse` | src/vec4.rs:17-31 | popping a pushed `Vec4` gives it back, and pop yields `x` exactly for the variable that pushing `x` makes |
| `Vec4.FromF32Array2` | src/vec4.rs:33-37 | `[a, b]` lands in slots 0 and 1, and slots 2 and 3 are 0.0 |
| `Vec4.FromF32Array3` | src/vec4.rs:39-43 | `[a, b, c]` lands in slots 0 to 2 in order, and slot 3 is 0.0 |
| `Vec4.FromF32Array4` | src/vec4.rs:45-49 | all four components are copied in order, with no zero fill |
| `Vec4.FromF64Array2` | src/vec4.rs:51-55 | each component is cast to f32 and lands in slots 0 and 1, and slots 2 and 3 are 0.0 |
| `Vec4.FromF64Array3` | src/vec4.rs:57-61 | each component is cast to f32 and lands in slots 0 to 2 in order, and slot 3 is 0.0 |
| `Vec4.FromF64Array4` | src/vec4.rs:63-67 | the four slots are the four components, each cast to f32, in order |
| `Vec4.FromF32Tuple2` | src/vec4.rs:69-73 | `(a, b)` lands in slots 0 and 1, and slots 2 and 3 are 0.0 |
| `Vec4.FromF32Tuple3` | src/vec4.rs:75-79 | `(a, b, c)` lands in slots 0 to 2 in order, and slot 3 is 0.0 |
| `Vec4.FromF32Tuple4` | src/vec4.rs:81-85 | the four slots are the tuple's fields in order: narrowing back to a 4-tuple returns the input |
| `Vec4.FromF64Tuple2` | src/vec4.rs:87-91 | each field is cast to f32 and lands in slots 0 and 1, and slots 2 and 3 are 0.0 |
| `Vec4.FromF64Tuple3` | src/vec4.rs:93-97 | each field is cast to f32 and lands in slots 0 to 2 in order, and slot 3 is 0.0 |
| `Vec4.FromF64Tuple4` | src/vec4.rs:99-103 | the four slots are the four fields, each cast to f32, in order |
| `Vec4.FromU32Array2` | src/vec4.rs:105-109 | each integer is cast to f32 without scaling and lands in slots 0 and 1, and slots 2 and 3 are 0.0 |
| `Vec4.FromU32Tuple2` | src/vec4.rs:111-115 | each integer is cast to f32 without scaling and lands in slots 0 and 1, and slots 2 and 3 are 0.0 |
| `Vec4.FromU8Array4` | src/vec4.rs:117-126 | slot `i` is channel `i` scaled to a unit float, for all four channels in order |
| `Vec4.FromU8Tuple4` | src/vec4.rs:128-137 | slot `i` is field `i` scaled to a unit float, for all four fields in order |
| `Vec4.ToF32Array2` | src/vec4.rs:139-143 | the result is slots 0 and 1, and slots 2 and 3 are dropped |
| `Vec4.ToF32Array3` | src/vec4.rs:145-149 | the result is slots 0 to 2, and slot 3 is dropped |
| `Vec4.ToF32Array4` | src/vec4.rs:151-155 | the result is the four slots: widening it back with `From<[f32; 4]>` gives the same `Vec4` |
| `Vec4.ToF64Array2` | src/vec4.rs:157-161 | the result is slots 0 and 1, widened exactly |
| `Vec4.ToF64Array3` | src/vec4.rs:163-171 | the result is slots 0 to 2, widened exactly |
| `Vec4.ToF64Array4` | src/vec4.rs:173-182 | the result is the four slots, widened exactly |
| `Vec4.ToF32Tuple2` | src/vec4.rs:184-188 | the tuple's fields are slots 0 and 1 |
| `Vec4.ToF32Tuple3` | src/vec4.rs:190-194 | the tuple's fields are slots 0 to 2 |
| `Vec4.ToF32Tuple4` | src/vec4.rs:196-200 | the tuple's fields are the four slots |
| `Vec4.ToF64Tuple2` | src/vec4.rs:202-206 | the tuple's fields are slots 0 and 1, widened exactly |
| `Vec4.ToF64Tuple3` | src/vec4.rs:208-216 | the tuple's fields are slots 0 to 2, widened exactly |
| `Vec4.ToF64Tuple4` | src/vec4.rs:218-227 | the tuple's fields are the four slots, widened exactly |
| `Vec4.ToU32Array2` | src/vec4.rs:229-233 | the result is slots 0 and 1, each cast to u32, and slots 2 and 3 are dropped |
| `Vec4.ToU32Tuple2` | src/vec4.rs:235-239 | the fields are slots 0 and 1, each cast to u32 |
| `Vec4.ToU8Tuple4` | src/vec4.rs:241-250 | field `i` is slot `i` scaled to 8 bits, for all four slots in order |
| `Vec4.ToU8Array4` | src/vec4.rs:252-261 | channel `i` is slot `i` scaled to 8 bits, for all four slots in order |
| `Vec4.F32ArraysRoundTrip` | src/vec4.rs:33-155 | narrowing an `[f32; N]` after widening it (N = 2, 3, 4) returns the input |
| `Vec4.F32TuplesRoundTrip` | src/vec4.rs:69-200 | narrowing an f32 tuple of arity 2, 3 or 4 after widening it returns the input |
| `Vec4.F64ArraysRoundTrip` | src/vec4.rs:51-182 | an `[f64; N]` returns through `Vec4` changed only by the f64-to-f32 cast of each component |
| `Vec4.IntegerShapesRoundTrip` | src/vec4.rs:105-261 | a u32 pair returns as the two integer casts composed per component, and a colour returns as the two channel scalings composed per channel |
| `Vec4.ZeroFillObserved` | src/vec4.rs:33-115 | reading all four slots after widening a 2- or 3-component input, or a u32 pair, shows the zero-filled trailing slots |
| `Vec4.NarrowingDropsTrailing` | src/vec4.rs:139-233 | a narrowing depends only on the slots it keeps, and a shorter narrowing is a prefix of a longer one |
| `Vec4.F32ShapesAgree` | src/vec4.rs:33-200 | the array and tuple forms of each f32 shape convert identically, in both directions |
| `Vec4.F64ShapesAgree` | src/vec4.rs:51-227 | the array and tuple forms of each f64 shape convert identically, in both directions |
| `Vec4.IntegerShapesAgree` | src/vec4.rs:105-261 | `[u32; 2]` and `(u32, u32)`, and `[u8; 4]` and `(u8, u8, u8, u8)`, convert identically in both directions |
| `Io.CauseText` | src/dyon_std/io.rs:11-14 | the second line is empty when the error has no source, and is the source's text when it has one |
| `Io.IoError` | src/dyon_std/io.rs:5-16 | total (no precondition, no error path); the message holds a line break at `BreakAt`, right after the error text, and its length is that offset plus one plus the cause text's length; the full layout is stated by `MessageLayout` |
| `Io.MessageLayout` | src/dyon_std/io.rs:5-16 | for every input (`IoError` has no precondition and no error path) the message is, at fixed offsets: the lead text, the action, the opening backtick, the file, the closing backtick and colon, the error text, one line break, and then the cause text to the end |
| `Io.NoCauseEndsWithBreak` | src/dyon_std/io.rs:11-12 | with no cause, the message is the first line followed by one line break, and it ends with that line break |
| `Io.CauseIsLastLine` | src/dyon_std/io.rs:13 | with a cause, the message is the cause-less message followed by the cause's text |
| `Io.HeaderBreaks` | src/dyon_std/io.rs:7 | the first line's line breaks are exactly those of the action, the file and the error text |
| `Io.LineBreaks` | src/dyon_std/io.rs:7 | the message's line breaks are exactly one of its own plus those in the action, the file, the error text and the cause |
| `Io.FirstLineIsHeader` | src/dyon_std/io.rs:7 | if the action, file and error text hold no line break, there is no line break before `BreakAt` and there is one at `BreakAt`, right after the error text, and the message holds one line break plus those of the cause |
| `Io.ReadDataTxt` | src/dyon_std/io.rs:6-15 | reading `data.txt` gives the exact message, with an empty second line when there is no cause and the cause as the second line otherwise |

## Left out

- The numeric behaviour of the casts is not modelled: `f64 as f32`,
  `u32 as f32`, `f32 as u32` and `f32 as u8`, including rounding, saturation
  and NaN handling. Each cast is a function the caller supplies. `f64 as f32`
  and `u32 as f32` round to nearest; `f32 as u32` and `f32 as u8` round
  toward zero and saturate, with NaN going to 0; the model leaves every cast
  abstract.
- The colour scaling `f32::from(b) / 255.0` and `(c * 255.0) as u8` is
  floating-point arithmetic. Only its shape is modelled: one abstract
  scaling per channel, applied in order. So the model does not show that
  255 maps to 1.0 and back exactly, or that a colour round trip stays within
  one unit per channel.
- Signed zero, NaN payloads and other IEEE details are not modelled, because
  a component is a real number.
- `Runtime::expected` is a function value inside `Dyon.Runtime`. How it
  renders a message belongs to the interpreter, which is not part of this
  model.
- Only the vec4 discriminant of `Variable` is modelled. Every other
  discriminant is collapsed into one `Other` constructor.
- `io::Error` is reduced to its display text and the display text of its
  immediate `source()`. Its kinds, the rest of its source chain and its
  `Display` implementation are not modelled.
- `pop_var` returns the `Vec4` itself. A host shape is obtained by applying
  a `From<Vec4>` conversion to the popped value.
