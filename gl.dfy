/**
 * The driver-facing vocabulary shared by every component: C++'s 32-bit
 * `unsigned int`, the component types a vertex layout may hold, colours and
 * matrices as opaque values, and the GL calls the engine issues.
 *
 * GL calls are foreign driver effects. The model records them, in order, as a
 * trace of `GlCall` values that each operation returns; nothing here says
 * what the driver does with them.
 */
module Gl {

  /** 2^32: the number of values of a C++ `unsigned int` / `uint32_t`. */
  const U32: int := 0x1_0000_0000

  newtype uint32 = x: int | 0 <= x < 0x1_0000_0000

  const MaxUint32: uint32 := 0xFFFF_FFFF

  /** Reduction modulo 2^32: what C++ unsigned arithmetic stores. */
  function Wrap32(x: int): (r: uint32)
    ensures 0 <= x < U32 ==> r as int == x
    ensures U32 <= x < 2 * U32 ==> r as int == x - U32
  {
    (x % U32) as uint32
  }

  /** Wrapping the left operand before an addition does not change the wrapped sum. */
  lemma WrapAddLeft(a: int, b: int)
    ensures Wrap32(Wrap32(a) as int + b) == Wrap32(a + b)
  {
    var q := a / U32;
    assert a == q * U32 + Wrap32(a) as int;
    ModShift(Wrap32(a) as int + b, q);
  }

  lemma ModShift(x: int, q: int)
    ensures (x + q * U32) % U32 == x % U32
  {
    var r := x % U32;
    var d := x / U32;
    assert x + q * U32 == (d + q) * U32 + r;
  }

  /** `offset += a * b` on unsigned ints: wrapping each step equals wrapping the exact total. */
  lemma WrapAddBoth(a: int, b: int)
    ensures Wrap32(Wrap32(a) as int + Wrap32(b) as int) == Wrap32(a + b)
  {
    WrapAddLeft(a, Wrap32(b) as int);
    WrapAddLeft(b, a);
  }

  /** The component types `VertexBufferLayout::Push<T>` accepts: float, unsigned int, unsigned char. */
  datatype ComponentType = Float | UnsignedInt | UnsignedByte

  datatype Vec3 = Vec3(x: real, y: real, z: real)

  /** An RGBA colour, passed through to the shader unchanged (no arithmetic is modelled). */
  datatype Vec4 = Vec4(r: real, g: real, b: real, a: real)

  /**
   * A 4x4 matrix as the term that built it. glm computes these in floating
   * point; the model never evaluates them, it only passes them along and
   * composes them.
   */
  datatype Mat4 =
    | Identity
    | Translate(base: Mat4, offset: Vec3)
    | Rotate(base: Mat4, degrees: real, axis: Vec3)
    | Product(left: Mat4, right: Mat4)

  /**
   * One call into the GL driver. Resource handles are the engine's own
   * objects (`object`), so distinct resources are distinct handles.
   */
  datatype GlCall =
    | UseProgram(program: nat)
    | Uniform1i(location: int, intValue: int)
    | Uniform1f(location: int, floatValue: real)
    | Uniform4f(location: int, vector: Vec4)
    | UniformMatrix4f(location: int, matrix: Mat4)
    | BindTexture(texture: object, slot: nat)
    | BindVertexArray(vao: object)
    | BindVertexBuffer(vb: object)
    | BindIndexBuffer(ib: object)
    | EnableVertexAttribArray(index: uint32)
    | VertexAttribPointer(index: uint32, size: uint32, componentType: ComponentType,
                          normalized: bool, stride: uint32, offset: uint32)
    | DrawElements(count: nat)
    | SetClearColor(color: Vec4)
    | ClearColorBuffer

  /** How many indexed draw calls a trace issues. */
  function DrawCount(calls: seq<GlCall>): (r: nat)
  {
    if calls == [] then 0
    else (if calls[0].DrawElements? then 1 else 0) + DrawCount(calls[1..])
  }

  lemma {:induction false} DrawCountAppend(a: seq<GlCall>, b: seq<GlCall>)
    ensures DrawCount(a + b) == DrawCount(a) + DrawCount(b)
  {
    if a == [] {
      assert a + b == b;
    } else {
      assert (a + b)[1..] == a[1..] + b;
      DrawCountAppend(a[1..], b);
    }
  }

  /** A trace with no draw call in it issues none. */
  lemma {:induction false} DrawCountZero(calls: seq<GlCall>)
    requires forall i :: 0 <= i < |calls| ==> !calls[i].DrawElements?
    ensures DrawCount(calls) == 0
  {
    if calls != [] {
      DrawCountZero(calls[1..]);
    }
  }
}
