/** The OpenGL context as the engine sees it. Nothing about the GPU is modelled:
    every GL call the engine makes is appended to the context's trace, and
    values that GL hands back (object names, uniform locations, compile
    status) are parameters of the operations that receive them. */
module Gl {

  datatype Vec2 = Vec2(x: real, y: real)
  datatype Vec3 = Vec3(x: real, y: real, z: real)
  datatype Vec4 = Vec4(x: real, y: real, z: real, w: real)

  /** A 4x4 matrix, kept as a symbolic term: glm's floating-point arithmetic is not
      modelled. `Model(t, r, s)` stands for translate(t) * rotateX(r.x) * rotateY(r.y)
      * rotateZ(r.z) * scale(s), with the angles in degrees. No proof relies on two
      different terms denoting different matrices. */
  datatype Mat4 =
    | Identity
    | Model(translation: Vec3, rotationDegrees: Vec3, scale: Vec3)
    | Entries(columns: seq<real>)

  /** The value argument of a glUniform* call, by the variant of the call. */
  datatype UniformArg =
    | Uniform1f(f: real)
    | Uniform1i(i: int)
    | Uniform3fv(v3: Vec3)
    | Uniform4fv(v4: Vec4)
    | UniformMatrix4fv(m: Mat4)

  datatype PixelFormat = Red | Rgb | Rgba

  datatype ShaderStage = VertexStage | FragmentStage

  datatype BufferTarget = ArrayBuffer | ElementArrayBuffer

  /** GL_TEXTURE0: texture unit i is selected with glActiveTexture(GL_TEXTURE0 + i). */
  const TEXTURE0: nat := 0x84C0

  /** The GL calls the modelled code issues. A uniform call also records the name
      its location was resolved from, so that properties can speak of names. */
  datatype Call =
    | UseProgram(program: nat)
    | Uniform(program: nat, name: string, location: int, arg: UniformArg)
    | CompileShader(stage: ShaderStage)
    | LinkProgram(program: nat)
    | UniformBlockBinding(program: nat, blockIndex: nat, bindingPoint: nat)
    | DeleteShader(stage: ShaderStage)
    | GenTexture(texture: nat)
    | BindTexture2D(texture: nat)
    | TexParameters(texture: nat)
    | TexImage2D(format: PixelFormat, width: int, height: int)
    | GenerateMipmap
    | ActiveTexture(unit: nat)
    | DeleteTexture(texture: nat)
    | CreateBuffer(buffer: nat)
    | NamedBufferStorage(buffer: nat, size: nat)
    | NamedBufferSubData(buffer: nat, offset: nat, size: nat)
    | CreateVertexArray(vao: nat)
    | VertexArrayVertexBuffer(vao: nat, buffer: nat, offset: nat, stride: nat)
    | VertexArrayElementBuffer(vao: nat, buffer: nat)
    | VertexArrayAttrib(vao: nat, attrib: nat, components: nat, relativeOffset: nat)
    | GenVertexArray(vao: nat)
    | GenBuffer(buffer: nat)
    | BindBuffer(target: BufferTarget, buffer: nat)
    | BufferData(target: BufferTarget, size: nat)
    | VertexAttribPointer(attrib: nat, components: nat, stride: nat, offset: nat)
    | EnableVertexAttribArray(attrib: nat)
    | BindVertexArray(vao: nat)
    | DrawElements(count: nat)
    | DeleteBuffer(buffer: nat)
    | DeleteVertexArray(vao: nat)

  /** The current GL context: the record of every call issued to it. */
  class Context {
    ghost var trace: seq<Call>

    constructor ()
      ensures trace == []
    {
      trace := [];
    }

    /** Issue one GL call. */
    method Issue(c: Call)
      modifies this
      ensures trace == old(trace) + [c]
    {
      trace := trace + [c];
    }
  }
}
