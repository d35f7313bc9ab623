/**
 * `Graphicsengine`: the registry of drawable resource bundles keyed by
 * `ObjectId`, id allocation, draw-by-handle and teardown.
 *
 * The projection is a constructor argument: its construction from the
 * framebuffer's aspect ratio is floating point work that is not modelled.
 */
module Engine {
  import opened Gl
  import opened Layout
  import opened Buffers
  import opened Shaders
  import Renderer

  /** `Graphicsengine::ObjectId`, a `uint32_t`. */
  type ObjectId = uint32

  /** The four resources one drawable owns. */
  datatype Buffer = Buffer(vao: VertexArray, vb: VertexBuffer, ib: IndexBuffer, texture: Texture)

  /** The unit quad: four vertices of (x, y, u, v). */
  const QuadVertices: seq<real> :=
    [-0.5, -0.5, 0.0, 0.0,
      0.5, -0.5, 1.0, 0.0,
      0.5,  0.5, 1.0, 1.0,
     -0.5,  0.5, 0.0, 1.0]

  /** `sizeof(positions)`: sixteen 4-byte floats. */
  const QuadVertexBytes: nat := 64

  /** Two triangles over the quad's corners. */
  const QuadIndices: seq<uint32> := [0, 1, 2, 2, 3, 0]

  /** The colour `draw` uses when the caller gives none. */
  const DefaultColor: Vec4 := Vec4(1.0, 1.0, 1.0, 1.0)

  /** The uniform names `draw` sets. */
  const TextureUniform: string := "u_Texture"
  const MvpUniform: string := "u_MVP"
  const ColorUniform: string := "u_Color"

  // ---------------------------------------------------------------------
  // Ids
  // ---------------------------------------------------------------------

  /** `nextId++` on a `uint32_t`: one more, wrapping to 0 after the largest value. */
  function NextId(id: ObjectId): (r: ObjectId)
    ensures id < MaxUint32 ==> r as int == id as int + 1
    ensures id == MaxUint32 ==> r == 0
  {
    Wrap32(id as int + 1)
  }

  /** The ids `k` successive `createQuad` calls return, starting with `nextId == next`. */
  function SuccessiveIds(next: ObjectId, k: nat): (r: seq<ObjectId>)
    ensures |r| == k && (k > 0 ==> r[0] == next)
    decreases k
  {
    if k == 0 then [] else [next] + SuccessiveIds(NextId(next), k - 1)
  }

  /** Without wrap-around, successive ids are `next, next + 1, ...`. */
  lemma {:induction false} SuccessiveIdsCount(next: ObjectId, k: nat)
    requires next as int + k <= U32
    ensures |SuccessiveIds(next, k)| == k
    ensures forall i :: 0 <= i < k ==> SuccessiveIds(next, k)[i] as int == next as int + i
    decreases k
  {
    if k > 0 {
      if k > 1 {
        SuccessiveIdsCount(NextId(next), k - 1);
      }
    }
  }

  /** Without wrap-around, successive ids strictly increase, so no two are equal. */
  lemma SuccessiveIdsIncrease(next: ObjectId, k: nat)
    requires next as int + k <= U32
    ensures forall i, j :: 0 <= i < j < |SuccessiveIds(next, k)| ==>
              SuccessiveIds(next, k)[i] < SuccessiveIds(next, k)[j]
  {
    SuccessiveIdsCount(next, k);
  }

  // ---------------------------------------------------------------------
  // Bundles
  // ---------------------------------------------------------------------

  /** A bundle built by `createQuad`: the unit quad's vertices and its six indices. */
  predicate QuadBundle(b: Buffer)
  {
    b.vb.data == QuadVertices && b.vb.byteSize == QuadVertexBytes &&
    b.ib.indices == QuadIndices && b.ib.count == |QuadIndices|
  }

  /** Two bundles share none of their four resources. */
  predicate Disjoint(x: Buffer, y: Buffer)
  {
    x.vao != y.vao && x.vb != y.vb && x.ib != y.ib && x.texture != y.texture
  }

  /** No resource is shared between two registered bundles. */
  ghost predicate Exclusive(m: map<ObjectId, Buffer>)
  {
    forall a, b :: a in m && b in m && a != b ==> Disjoint(m[a], m[b])
  }

  /** Registering a bundle that shares nothing with the registry keeps every bundle exclusive. */
  lemma RegisterExclusive(m: map<ObjectId, Buffer>, id: ObjectId, b: Buffer)
    requires Exclusive(m)
    requires forall k :: k in m ==> Disjoint(m[k], b)
    ensures Exclusive(m[id := b])
  {
  }

  /** The registry holds exactly the ids `1 .. next - 1`: every id handed out, none twice. */
  ghost predicate DenseMap(m: map<ObjectId, Buffer>, next: ObjectId)
  {
    && 1 <= next
    && forall id: ObjectId :: id in m <==> 1 <= id < next
  }

  /** Registering under `next` and advancing the counter keeps the registry dense, until it wraps. */
  lemma RegisterDense(m: map<ObjectId, Buffer>, next: ObjectId, b: Buffer)
    requires DenseMap(m, next) && next < MaxUint32
    ensures next !in m
    ensures DenseMap(m[next := b], NextId(next))
  {
    var m' := m[next := b];
    forall k: ObjectId ensures k in m' <==> 1 <= k < NextId(next) {
      assert k in m' <==> k == next || k in m;
    }
  }

  /** A `delete` the engine performs. */
  datatype Release =
    | DeleteVertexBuffer(vb: VertexBuffer)
    | DeleteIndexBuffer(ib: IndexBuffer)
    | DeleteVertexArray(vao: VertexArray)
    | DeleteTexture(texture: Texture)
    | DeleteShader(shader: Shader)

  /** The deletes for one bundle, in the destructor's order. */
  function Releases(b: Buffer): (r: seq<Release>)
    ensures |r| == 4
  {
    [DeleteVertexBuffer(b.vb), DeleteIndexBuffer(b.ib), DeleteVertexArray(b.vao), DeleteTexture(b.texture)]
  }

  predicate Distinct<T(==)>(s: seq<T>)
  {
    forall i, j :: 0 <= i < j < |s| ==> s[i] != s[j]
  }

  /** The quad layout: two attributes of two floats, position then texture coordinate. */
  function QuadLayoutCalls(vao: VertexArray, vb: VertexBuffer, sizeOf: ComponentType -> uint32): (r: seq<GlCall>)
  {
    var half := Wrap32(2 * sizeOf(Float) as int);
    var stride := Wrap32(4 * sizeOf(Float) as int);
    [BindVertexArray(vao), BindVertexBuffer(vb),
     EnableVertexAttribArray(0), VertexAttribPointer(0, 2, Float, false, stride, 0),
     EnableVertexAttribArray(1), VertexAttribPointer(1, 2, Float, false, stride, half)]
  }

  /**
   * The layout part of `createQuad`: two attributes of two floats pushed
   * onto a fresh layout, then attached to the vertex array.
   */
  method QuadLayout(vao: VertexArray, vb: VertexBuffer, sizeOf: ComponentType -> uint32)
    returns (calls: seq<GlCall>)
    ensures calls == QuadLayoutCalls(vao, vb, sizeOf)
  {
    var layout := new VertexBufferLayout(sizeOf);
    layout.Push(Float, 2, false);
    layout.Push(Float, 2, false);
    calls := vao.AddBuffer(vb, layout);
    QuadWalk(calls, vao, vb, layout.elements, layout.stride, sizeOf);
  }

  /**
   * The resources `createQuad` builds: the quad's vertex buffer and index
   * buffer, a vertex array holding the quad layout, and the texture.
   */
  method NewQuad(texturePath: string, sizeOf: ComponentType -> uint32) returns (b: Buffer, calls: seq<GlCall>)
    ensures fresh(b.vao) && fresh(b.vb) && fresh(b.ib) && fresh(b.texture)
    ensures QuadBundle(b) && b.texture.path == texturePath
    ensures calls == QuadLayoutCalls(b.vao, b.vb, sizeOf)
  {
    var vao := new VertexArray();
    var vb := new VertexBuffer(QuadVertices, QuadVertexBytes);
    var ib := new IndexBuffer(QuadIndices, 6);
    calls := QuadLayout(vao, vb, sizeOf);
    var texture := new Texture(texturePath);
    b := Buffer(vao, vb, ib, texture);
  }

  /** The trace `addBuffer` produces for the two-float, two-float layout. */
  lemma QuadWalk(calls: seq<GlCall>, vao: VertexArray, vb: VertexBuffer, elements: seq<VertexBufferElement>,
                 stride: uint32, sizeOf: ComponentType -> uint32)
    requires elements == [VertexBufferElement(Float, 2, false), VertexBufferElement(Float, 2, false)]
    requires stride == Wrap32(SizeSum(elements, sizeOf))
    requires |calls| == 2 + 2 * |elements|
    requires calls[0] == BindVertexArray(vao) && calls[1] == BindVertexBuffer(vb)
    requires forall i :: 0 <= i < |elements| ==>
               calls[2 + 2 * i] == EnableVertexAttribArray(Wrap32(i)) &&
               calls[3 + 2 * i] == VertexAttribPointer(Wrap32(i), elements[i].count, elements[i].componentType,
                                                       elements[i].normalized, stride,
                                                       Wrap32(OffsetOf(elements, i, sizeOf)))
    ensures calls == QuadLayoutCalls(vao, vb, sizeOf)
  {
    QuadLayoutFacts(elements, stride, sizeOf);
    assert calls[2] == EnableVertexAttribArray(Wrap32(0)) && calls[4] == EnableVertexAttribArray(Wrap32(1));
    assert calls[3] == VertexAttribPointer(Wrap32(0), 2, Float, false, stride, Wrap32(OffsetOf(elements, 0, sizeOf)));
    assert calls[5] == VertexAttribPointer(Wrap32(1), 2, Float, false, stride, Wrap32(OffsetOf(elements, 1, sizeOf)));
  }

  /** The stride and offsets of the two-float, two-float layout. */
  lemma QuadLayoutFacts(elements: seq<VertexBufferElement>, stride: uint32, sizeOf: ComponentType -> uint32)
    requires elements == [VertexBufferElement(Float, 2, false), VertexBufferElement(Float, 2, false)]
    requires stride == Wrap32(SizeSum(elements, sizeOf))
    ensures stride == Wrap32(4 * sizeOf(Float) as int)
    ensures Wrap32(OffsetOf(elements, 0, sizeOf)) == 0
    ensures Wrap32(OffsetOf(elements, 1, sizeOf)) == Wrap32(2 * sizeOf(Float) as int)
  {
    var e := elements[0];
    assert elements[..1] == [e];
    assert [e][..0] == [];
    assert elements[..0] == [];
    assert SizeSum([e], sizeOf) == 2 * sizeOf(Float) as int;
    assert elements[..|elements| - 1] == [e];
    assert SizeSum(elements, sizeOf) == 4 * sizeOf(Float) as int;
  }

  /** The uniform uploads and the texture binding that precede the draw. */
  function DrawSetup(shader: Shader, b: Buffer, mvp: Mat4, color: Vec4): (setup: seq<GlCall>)
    ensures |setup| >= 4 && DrawCount(setup) == 0
    ensures setup[0] == UseProgram(shader.program)
    ensures setup[|setup| - 1] == BindTexture(b.texture, 0)
    ensures setup[|setup| - 2] == Uniform4f(shader.location(ColorUniform), color)
  {
    var setup := shader.Bind() + [Uniform1i(shader.location(TextureUniform), 0)]
                 + (if shader.location(MvpUniform) == -1 then [] else [UniformMatrix4f(shader.location(MvpUniform), mvp)])
                 + [Uniform4f(shader.location(ColorUniform), color), BindTexture(b.texture, 0)];
    DrawCountZero(setup);
    setup
  }

  /** What `draw` issues for a registered bundle: the setup, then the renderer's draw. */
  function DrawSequence(shader: Shader, b: Buffer, mvp: Mat4, color: Vec4): (r: seq<GlCall>)
  {
    DrawSetup(shader, b, mvp, color) + Renderer.Draw(b.vao, b.ib, shader)
  }

  /**
   * Drawing a bundle starts by binding the program, uploads the colour and
   * binds the bundle's texture to slot 0, and ends in exactly one draw, of
   * the bundle's vertex array and index buffer.
   */
  lemma DrawSequenceDraws(shader: Shader, b: Buffer, mvp: Mat4, color: Vec4)
    ensures var calls := DrawSequence(shader, b, mvp, color);
      && DrawCount(calls) == 1
      && calls[0] == UseProgram(shader.program)
      && calls[|calls| - 6] == Uniform4f(shader.location(ColorUniform), color)
      && calls[|calls| - 5] == BindTexture(b.texture, 0)
      && calls[|calls| - 3] == BindVertexArray(b.vao)
      && calls[|calls| - 2] == BindIndexBuffer(b.ib)
      && calls[|calls| - 1] == DrawElements(b.ib.count)
  {
    DrawCountAppend(DrawSetup(shader, b, mvp, color), Renderer.Draw(b.vao, b.ib, shader));
  }

  /** The MVP matrix is uploaded exactly when the shader has an active `u_MVP` uniform. */
  lemma DrawSequenceMvp(shader: Shader, b: Buffer, mvp: Mat4, color: Vec4)
    ensures UniformMatrix4f(shader.location(MvpUniform), mvp) in DrawSequence(shader, b, mvp, color)
            <==> shader.location(MvpUniform) != -1
  {
    var calls := DrawSequence(shader, b, mvp, color);
    var m := UniformMatrix4f(shader.location(MvpUniform), mvp);
    var draw := Renderer.Draw(b.vao, b.ib, shader);
    var head := shader.Bind() + [Uniform1i(shader.location(TextureUniform), 0)];
    var mvpCalls := if shader.location(MvpUniform) == -1 then [] else [m];
    var tail := [Uniform4f(shader.location(ColorUniform), color), BindTexture(b.texture, 0)] + draw;
    assert calls == head + mvpCalls + tail;
    assert m !in head && m !in tail;
  }

  /** A quad bundle is drawn with its six indices. */
  lemma QuadDrawsSixIndices(shader: Shader, b: Buffer, mvp: Mat4, color: Vec4)
    requires QuadBundle(b)
    ensures var calls := DrawSequence(shader, b, mvp, color);
      calls[|calls| - 1] == DrawElements(6)
  {
    DrawSequenceDraws(shader, b, mvp, color);
  }

  class Graphicsengine {
    /** `buffersMap`: each id maps to at most one bundle. */
    var buffersMap: map<ObjectId, Buffer>
    var nextId: ObjectId
    const shader: Shader
    const proj: Mat4
    /** `VertexBufferElement::getSizeOfType`, left uninterpreted. */
    const sizeOf: ComponentType -> uint32

    /** The shader's cache is coherent, every bundle is a quad, and bundles share nothing. */
    ghost predicate Valid()
      reads this, shader
    {
      && shader.Valid()
      && (forall id :: id in buffersMap ==> QuadBundle(buffersMap[id]))
      && Exclusive(buffersMap)
    }

    /** The registry holds exactly the ids handed out so far: true until `nextId` wraps. */
    ghost predicate Dense()
      reads this
    {
      DenseMap(buffersMap, nextId)
    }

    /**
     * `Graphicsengine(window)`: builds the shader from the file's lines, keeps
     * the projection, binds texture unit 0 to the sampler, and starts with an
     * empty registry and `nextId == 1`.
     */
    constructor (shaderLines: seq<string>, program: nat, location: string -> int,
                 proj: Mat4, sizeOf: ComponentType -> uint32)
      requires Parse(shaderLines).Ok?
      ensures Valid() && Dense()
      ensures buffersMap == map[] && nextId == 1
      ensures fresh(shader) && shader.program == program && shader.location == location
      ensures shader.vertexSource == Parse(shaderLines).value.vertexSource
      ensures shader.fragmentSource == Parse(shaderLines).value.fragmentSource
      ensures shader.cache == map[TextureUniform := location(TextureUniform)]
      ensures this.proj == proj && this.sizeOf == sizeOf
    {
      buffersMap := map[];
      nextId := 1;
      shader := new Shader(shaderLines, program, location);
      this.proj := proj;
      this.sizeOf := sizeOf;
      new;
      var _ := shader.SetUniform1i(TextureUniform, 0);
    }

    /**
     * `createQuad(texturePath)`: builds a fresh quad bundle, registers it
     * under the current `nextId`, advances the counter and returns the id.
     * No other registry entry changes.
     */
    method CreateQuad(texturePath: string) returns (id: ObjectId, calls: seq<GlCall>)
      requires Valid()
      modifies this
      ensures Valid()
      ensures id == old(nextId) && nextId == NextId(old(nextId))
      ensures id in buffersMap && buffersMap == old(buffersMap)[id := buffersMap[id]]
      ensures fresh(buffersMap[id].vao) && fresh(buffersMap[id].vb)
      ensures fresh(buffersMap[id].ib) && fresh(buffersMap[id].texture)
      ensures QuadBundle(buffersMap[id]) && buffersMap[id].texture.path == texturePath
      ensures calls == QuadLayoutCalls(buffersMap[id].vao, buffersMap[id].vb, sizeOf)
      ensures old(Dense()) && old(nextId) < MaxUint32 ==> Dense() && old(nextId) !in old(buffersMap)
    {
      var b;
      b, calls := NewQuad(texturePath, sizeOf);
      assert forall k :: k in buffersMap ==> Disjoint(buffersMap[k], b);
      RegisterExclusive(buffersMap, nextId, b);
      if Dense() && nextId < MaxUint32 {
        RegisterDense(buffersMap, nextId, b);
      }
      id := nextId;
      nextId := NextId(nextId);
      buffersMap := buffersMap[id := b];
    }

    /**
     * `draw(id, model, color)`: an unknown id does nothing at all. A known
     * id binds the shader, sets the sampler, the MVP (`proj * model`) and
     * the colour, binds the bundle's texture to slot 0 and issues one draw.
     */
    method Draw(id: ObjectId, model: Mat4, color: Vec4 := DefaultColor) returns (calls: seq<GlCall>)
      requires Valid()
      modifies shader
      ensures Valid()
      ensures id !in buffersMap ==> calls == [] && shader.cache == old(shader.cache)
      ensures id in buffersMap ==>
                calls == DrawSequence(shader, buffersMap[id], Product(proj, model), color) &&
                shader.cache == old(shader.cache)[TextureUniform := shader.location(TextureUniform)]
                                                 [MvpUniform := shader.location(MvpUniform)]
                                                 [ColorUniform := shader.location(ColorUniform)]
    {
      if id !in buffersMap {
        return [];
      }
      var m := buffersMap[id];
      var mvp := Product(proj, model);

      var bind := shader.Bind();
      var sampler := shader.SetUniform1i(TextureUniform, 0);
      var transform := shader.SetUniformMat4f(MvpUniform, mvp);
      var tint := shader.SetUniform4f(ColorUniform, color);
      var setup := bind + sampler + transform + tint + [BindTexture(m.texture, 0)];
      assert setup == DrawSetup(shader, m, mvp, color);
      calls := setup + Renderer.Draw(m.vao, m.ib, shader);
    }

    /** `clear(color)`: set the clear colour, then clear the colour buffer. */
    method Clear(color: Vec4) returns (calls: seq<GlCall>)
      ensures calls == [SetClearColor(color), ClearColorBuffer]
      ensures DrawCount(calls) == 0
    {
      calls := [SetClearColor(color)] + Renderer.Clear();
      DrawCountZero(calls);
    }

    /**
     * `~Graphicsengine()`: deletes the four resources of every bundle, each
     * exactly once, empties the registry, and deletes the shader.
     */
    method Destroy() returns (released: seq<Release>, ghost order: seq<ObjectId>)
      requires Valid()
      modifies this
      ensures buffersMap == map[] && nextId == old(nextId)
      ensures (forall k :: k in order <==> k in old(buffersMap)) && |order| == |old(buffersMap)|
      ensures released == Flatten(old(buffersMap), order) + [DeleteShader(shader)]
      ensures |released| == 4 * |old(buffersMap)| + 1
      ensures released[|released| - 1] == DeleteShader(shader)
      ensures forall k, n :: k in old(buffersMap) && 0 <= n < 4 ==> Releases(old(buffersMap)[k])[n] in released
      ensures forall r :: r in released ==>
                r == DeleteShader(shader) || exists k :: k in old(buffersMap) && r in Releases(old(buffersMap)[k])
      ensures Distinct(released)
    {
      var remaining := buffersMap.Keys;
      released := [];
      order := [];
      while remaining != {}
        invariant buffersMap == old(buffersMap) && nextId == old(nextId)
        invariant ReleasedExactly(buffersMap, remaining, released)
        invariant ReleasedInOrder(buffersMap, remaining, order, released)
        decreases remaining
      {
        var k :| k in remaining;
        ReleaseStep(buffersMap, remaining, released, k);
        OrderStep(buffersMap, remaining, order, released, k);
        released := released + Releases(buffersMap[k]);
        order := order + [k];
        remaining := remaining - {k};
      }
      ReleaseFinish(buffersMap, released, shader);
      buffersMap := map[];
      released := released + [DeleteShader(shader)];
    }
  }

  /** The deletes for the bundles under `order`, one bundle after another. */
  function Flatten(m: map<ObjectId, Buffer>, order: seq<ObjectId>): (r: seq<Release>)
    requires forall k :: k in order ==> k in m
  {
    if order == [] then []
    else Flatten(m, order[..|order| - 1]) + Releases(m[order[|order| - 1]])
  }

  /** `order` lists the bundles released so far, each once, and the deletes follow it. */
  ghost predicate ReleasedInOrder(m: map<ObjectId, Buffer>, remaining: set<ObjectId>,
                                  order: seq<ObjectId>, released: seq<Release>)
  {
    && (forall k :: k in order <==> k in m && k !in remaining)
    && |order| + |remaining| == |m.Keys|
    && released == Flatten(m, order)
  }

  lemma OrderStep(m: map<ObjectId, Buffer>, remaining: set<ObjectId>, order: seq<ObjectId>,
                  released: seq<Release>, k: ObjectId)
    requires remaining <= m.Keys && k in remaining
    requires ReleasedInOrder(m, remaining, order, released)
    ensures ReleasedInOrder(m, remaining - {k}, order + [k], released + Releases(m[k]))
  {
    assert (order + [k])[..|order|] == order;
  }

  /**
   * The deletes issued so far are exactly those of the bundles no longer
   * remaining, each issued once.
   */
  ghost predicate ReleasedExactly(m: map<ObjectId, Buffer>, remaining: set<ObjectId>, released: seq<Release>)
  {
    && remaining <= m.Keys
    && |released| + 4 * |remaining| == 4 * |m.Keys|
    && (forall k, n :: k in m && k !in remaining && 0 <= n < 4 ==> Releases(m[k])[n] in released)
    && (forall r :: r in released ==> exists k :: k in m && k !in remaining && r in Releases(m[k]))
    && Distinct(released)
  }

  /** Releasing one more bundle keeps the deletes exact, because bundles share no resource. */
  lemma ReleaseStep(m: map<ObjectId, Buffer>, remaining: set<ObjectId>, released: seq<Release>, k: ObjectId)
    requires Exclusive(m) && ReleasedExactly(m, remaining, released) && k in remaining
    ensures ReleasedExactly(m, remaining - {k}, released + Releases(m[k]))
  {
    ReleaseStepDistinct(m, remaining, released, k);
    ReleaseStepOrigin(m, remaining, released, k);
    ReleaseStepCovers(m, remaining, released, k);
  }

  lemma ReleaseStepDistinct(m: map<ObjectId, Buffer>, remaining: set<ObjectId>, released: seq<Release>, k: ObjectId)
    requires Exclusive(m) && ReleasedExactly(m, remaining, released) && k in remaining
    ensures Distinct(released + Releases(m[k]))
  {
    var all := released + Releases(m[k]);
    forall i, j | 0 <= i < j < |all| ensures all[i] != all[j] {
      if j >= |released| && i < |released| {
        var r := released[i];
        assert r in released;
        var k' :| k' in m && k' !in remaining && r in Releases(m[k']);
        assert k' != k;
      }
    }
  }

  lemma ReleaseStepOrigin(m: map<ObjectId, Buffer>, remaining: set<ObjectId>, released: seq<Release>, k: ObjectId)
    requires ReleasedExactly(m, remaining, released) && k in remaining
    ensures forall r :: r in released + Releases(m[k]) ==>
              exists k' :: k' in m && k' !in remaining - {k} && r in Releases(m[k'])
  {
    var rest := remaining - {k};
    forall r | r in released + Releases(m[k]) ensures exists k' :: k' in m && k' !in rest && r in Releases(m[k']) {
      if r !in released {
        assert r in Releases(m[k]);
      } else {
        var k' :| k' in m && k' !in remaining && r in Releases(m[k']);
        assert k' !in rest;
      }
    }
  }

  lemma ReleaseStepCovers(m: map<ObjectId, Buffer>, remaining: set<ObjectId>, released: seq<Release>, k: ObjectId)
    requires ReleasedExactly(m, remaining, released) && k in remaining
    ensures forall k', n :: k' in m && k' !in remaining - {k} && 0 <= n < 4 ==>
              Releases(m[k'])[n] in released + Releases(m[k])
  {
    var all := released + Releases(m[k]);
    forall k', n | k' in m && k' !in remaining - {k} && 0 <= n < 4 ensures Releases(m[k'])[n] in all {
      if k' == k {
        assert all[|released| + n] == Releases(m[k])[n];
      }
    }
  }

  /** After every bundle, the shader's delete closes the list and is new. */
  lemma ReleaseFinish(m: map<ObjectId, Buffer>, released: seq<Release>, shader: Shader)
    requires ReleasedExactly(m, {}, released)
    ensures |released| == 4 * |m| && |m.Keys| == |m|
    ensures Distinct(released + [DeleteShader(shader)])
  {
    assert |m.Keys| == |m|;
    assert DeleteShader(shader) !in released;
  }
}
