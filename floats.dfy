/** Floating-point values are carried as their IEEE 754 bit patterns and never
    computed on inside the model; where a component adds two floats, the
    addition is a parameter. */
module Floats {
  newtype f64 = x: int | 0 <= x < 0x1_0000_0000_0000_0000
  newtype f32 = x: int | 0 <= x < 0x1_0000_0000

  /** The floating-point operations the backends perform, as parameters:
      addition, the quotient of two unsigned integers (`(double)counter /
      resolution`), the runtime's decimal formatting of a double, and the
      implicit conversions of an integer to `float` or `double` and of a
      `float` to `double`. */
  datatype FloatOps = FloatOps(
    addSingle: (f32, f32) -> f32,
    addDouble: (f64, f64) -> f64,
    ratio: (int, int) -> f64,
    format: f64 -> string,
    intToSingle: int -> f32,
    intToDouble: int -> f64,
    singleToDouble: f32 -> f64)

  /** 1.0 */
  const OneDouble: f64 := 0x3FF0_0000_0000_0000
}
