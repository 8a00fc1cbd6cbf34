/**
 * The WebGL calls the compute shader issues, as an abstract command trace.
 * GL objects (textures, framebuffers, uniform locations, programs) are
 * opaque handles; only the arguments the bookkeeping chooses are recorded.
 */
module WebGl {
  import opened Wrappers

  /** `gl.TEXTURE0`, the first texture unit (0x84C0 in the WebGL 1.0 constants). */
  const TEXTURE0: nat := 0x84C0

  /** `gl.TRIANGLES` (0x0004 in the WebGL 1.0 constants). */
  const TRIANGLES: nat := 0x0004

  /** The value of a uniform: a single number or an array of numbers. */
  datatype UniformValue = Number(x: real) | Numbers(xs: seq<real>)

  datatype Command =
    | ActiveTexture(textureUnit: nat)
    | BindTexture(texture: nat)
    | Uniform1i(location: Option<nat>, value: nat)
    | Uniform2fv(location: Option<nat>, x: int, y: int)
    /** `gl['uniform' + suffix](location, data)` */
    | SetUniform(suffix: string, location: Option<nat>, data: UniformValue)
    | TexImage2D(format: string, width: int, height: int)
    | DrawArrays(mode: nat, first: nat, count: nat)

  /**
   * JavaScript's conversion to a number of a slot id as the source stores it:
   * `TEXTURE0 + null` and `uniform1i(loc, null)` both see 0.
   */
  function NumberValue(id: Option<nat>): nat
  {
    match id
    case Some(n) => n
    case None => 0
  }
}
