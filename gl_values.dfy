/** Plain values that the render state copies, compares and hands to the
    device without computing on them. */
module GLValues {

  datatype Option<T> = None | Some(value: T)

  /** An 8-bit unsigned byte, as in the fields of FRenderStyle. */
  newtype uint8 = x: int | 0 <= x < 0x100

  /** A 32-bit unsigned word. */
  newtype uint32 = x: int | 0 <= x < 0x1_0000_0000

  /** A single-precision float, kept as its IEEE-754 bit pattern: the core
      stores, compares and forwards floats but never does arithmetic on them. */
  datatype Float = Float(bits: uint32) {
    /** What `f == 0` means for a C float: true of both +0.0 and -0.0, the
        patterns whose bits other than the sign bit (the top one) are 0. */
    predicate IsZero() {
      bits as int % 0x8000_0000 == 0
    }
  }

  const FloatZero := Float(0)
  const FloatOne := Float(0x3F80_0000)

  /** A palette entry: one 32-bit word, blue in the low byte, then green,
      red and alpha. */
  newtype PalEntry = x: int | 0 <= x < 0x1_0000_0000 {
    function R(): int { (this as int / 0x1_0000) % 0x100 }
    function G(): int { (this as int / 0x100) % 0x100 }
    function B(): int { this as int % 0x100 }
    /** The colour without its alpha byte, `d & 0xffffff`. */
    function RGB(): int { this as int % 0x100_0000 }
  }

  /** An FVector4 of floats. */
  datatype Vec4 = Vec4(x: Float, y: Float, z: Float, w: Float) {
    function Elements(): seq<Float> { [x, y, z, w] }
    /** The first three components, what glUniform3fv reads through `&v.X`. */
    function XYZ(): seq<Float> { [x, y, z] }
  }
}
