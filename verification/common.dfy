/** Value types shared by the component models: an optional value (the
    model's stand-in for a nullable engine reference) and the small vector
    and colour records the components only store and compare. */
module Common {

  /** `None` plays the part of a null reference or a failed engine lookup. */
  datatype Option<+T> = None | Some(value: T)

  /** A position or a scale. The model never computes with it. */
  datatype Vec3 = Vec3(x: real, y: real, z: real)

  /** A rotation, carried around unchanged. */
  datatype Rotation = Rotation(x: real, y: real, z: real, w: real)

  /** An RGBA colour. */
  datatype Rgba = Rgba(r: real, g: real, b: real, a: real)

  /** The range of a C# `int`. */
  predicate IsInt32(n: int) {
    -0x8000_0000 <= n < 0x8000_0000
  }
}
