/**
 * `Renderer`: a stateless facade issuing one indexed draw, and the clear.
 * The GL error polling wrapped around each call (`GLCall`) is not modelled.
 */
module Renderer {
  import opened Gl
  import opened Buffers
  import opened Shaders

  /**
   * `Draw(va, ib, shader)`: bind the program, the vertex array and the index
   * buffer, then exactly one triangle draw sized by the index buffer's count.
   */
  function Draw(va: VertexArray, ib: IndexBuffer, shader: Shader): (calls: seq<GlCall>)
    ensures DrawCount(calls) == 1
    ensures |calls| == 4 && calls[|calls| - 1] == DrawElements(ib.count)
    ensures calls[0] == UseProgram(shader.program)
    ensures calls[1] == BindVertexArray(va) && calls[2] == BindIndexBuffer(ib)
  {
    var calls := shader.Bind() + [BindVertexArray(va), BindIndexBuffer(ib), DrawElements(ib.count)];
    var setup, draw := calls[..3], [DrawElements(ib.count)];
    assert calls == setup + draw;
    DrawCountZero(setup);
    DrawCountAppend(setup, draw);
    assert draw[1..] == [];
    calls
  }

  /** `Clear()`: clears the colour buffer only. */
  function Clear(): (calls: seq<GlCall>)
    ensures |calls| == 1 && calls[0] == ClearColorBuffer && DrawCount(calls) == 0
  {
    [ClearColorBuffer]
  }
}
