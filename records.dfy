/**
 * The records the compute shader works with: input buffers, uniforms, the
 * per-name slot information, and what the operations throw.
 */
module Records {
  import opened Wrappers
  import opened Slots
  import opened WebGl

  /** What an operation throws. */
  datatype Exception =
    | NoContext               // "compute shader without a WebGL context"
    | NoWidth                 // "compute shader without a width"
    | NoHeight                // "compute shader without a height"
    | NameTaken(name: string) // "the input name ... is already taken"
    | ReservedName            // "the input name 'length' is a reserved name"
    | MissingOperand          // "swapTextures requires two inputs"
    | TypeError               // the JavaScript runtime's: a property of null/undefined, or a call of undefined

  /**
   * The name of an input buffer. `inputs` keeps its counter under the key
   * `length`, so no buffer may be called that; createInput refuses it.
   */
  type InputName = s: string | s != "length" witness "input"

  /** What the shader records per input name: the slot id and two uniform locations. */
  datatype SlotInfo = SlotInfo(id: SlotId, location: Option<nat>, dimensionsLocation: Option<nat>)

  /** A SlotInfo after detach: every field null. */
  const Cleared: SlotInfo := SlotInfo(None, None, None)

  /** A buffer: a texture with a framebuffer attached, under a name. */
  class Buffer {
    const name: InputName
    const width: int
    const height: int
    const format: string
    var texture: nat
    var frameBuffer: nat
    /** Set to null when the record is built and never written by the shader: addInput records ids in `inputInfo`. */
    const id: SlotId
    const location: Option<nat>
    const dimensionsLocation: Option<nat>

    /** The record literal built by createInput. */
    constructor (name: InputName, width: int, height: int, format: string, texture: nat, frameBuffer: nat)
      ensures this.name == name && this.width == width && this.height == height && this.format == format
      ensures this.texture == texture && this.frameBuffer == frameBuffer
      ensures id == None && location == None && dimensionsLocation == None
    {
      this.name := name;
      this.width := width;
      this.height := height;
      this.format := format;
      this.texture := texture;
      this.frameBuffer := frameBuffer;
      id := None;
      location := None;
      dimensionsLocation := None;
    }
  }

  /** A uniform: a named value and the suffix of the `gl.uniform*` call that sets it. */
  class Uniform {
    const name: string
    const suffix: string
    var data: UniformValue

    /** createUniform. */
    constructor (name: string, suffix: string, data: UniformValue)
      ensures this.name == name && this.suffix == suffix && this.data == data
    {
      this.name := name;
      this.suffix := suffix;
      this.data := data;
    }
  }

  /** A value of the `uniforms` object: a registered uniform, or the number 0 clearUniforms stores. */
  datatype UniformEntry = Registered(uniform: Uniform) | Zero
}
