/**
 * The GPU resource wrappers a resource bundle owns. `VertexBuffer`,
 * `IndexBuffer` and `Texture` keep only what they were constructed from (their
 * constructors upload to the driver, which is not modelled). `VertexArray`
 * carries the attribute walk of `addBuffer`.
 */
module Buffers {
  import opened Gl
  import opened Layout

  /** A fixed block of vertex data, uploaded once. */
  class VertexBuffer {
    const data: seq<real>
    const byteSize: nat

    constructor (data: seq<real>, byteSize: nat)
      ensures this.data == data && this.byteSize == byteSize
    {
      this.data := data;
      this.byteSize := byteSize;
    }
  }

  /** A fixed list of 32-bit indices that remembers its element count (`getCount`). */
  class IndexBuffer {
    const indices: seq<uint32>
    const count: nat

    constructor (indices: seq<uint32>, count: nat)
      ensures this.indices == indices && this.count == count
    {
      this.indices := indices;
      this.count := count;
    }
  }

  /** A 2-D texture loaded from an image file (loading is not modelled). */
  class Texture {
    const path: string

    constructor (path: string)
      ensures this.path == path
    {
      this.path := path;
    }
  }

  /** The two calls `addBuffer` issues for element `k`: enable attribute `k`, then describe it. */
  function AttributeCalls(elements: seq<VertexBufferElement>, stride: uint32,
                          sizeOf: ComponentType -> uint32, k: nat): (r: seq<GlCall>)
    requires k < |elements|
  {
    [EnableVertexAttribArray(Wrap32(k)),
     VertexAttribPointer(Wrap32(k), elements[k].count, elements[k].componentType, elements[k].normalized,
                         stride, Wrap32(OffsetOf(elements, k, sizeOf)))]
  }

  /** The calls for the first `n` elements, in element order. */
  function AttributeWalk(elements: seq<VertexBufferElement>, stride: uint32,
                         sizeOf: ComponentType -> uint32, n: nat): (r: seq<GlCall>)
    requires n <= |elements|
  {
    if n == 0 then []
    else AttributeWalk(elements, stride, sizeOf, n - 1) + AttributeCalls(elements, stride, sizeOf, n - 1)
  }

  /** Element `k` of the walk owns call positions `2k` and `2k + 1`. */
  lemma {:induction false} AttributeWalkAt(elements: seq<VertexBufferElement>, stride: uint32,
                                            sizeOf: ComponentType -> uint32, n: nat, k: nat)
    requires k < n <= |elements|
    ensures |AttributeWalk(elements, stride, sizeOf, n)| == 2 * n
    ensures AttributeWalk(elements, stride, sizeOf, n)[2 * k] == AttributeCalls(elements, stride, sizeOf, k)[0]
    ensures AttributeWalk(elements, stride, sizeOf, n)[2 * k + 1] == AttributeCalls(elements, stride, sizeOf, k)[1]
  {
    AttributeWalkLength(elements, stride, sizeOf, n - 1);
    if k < n - 1 {
      AttributeWalkAt(elements, stride, sizeOf, n - 1, k);
    }
  }

  lemma {:induction false} AttributeWalkLength(elements: seq<VertexBufferElement>, stride: uint32,
                                                sizeOf: ComponentType -> uint32, n: nat)
    requires n <= |elements|
    ensures |AttributeWalk(elements, stride, sizeOf, n)| == 2 * n
  {
    if n > 0 {
      AttributeWalkLength(elements, stride, sizeOf, n - 1);
    }
  }

  /** The walk after two binding calls, read position by position. */
  lemma WalkPositions(head: seq<GlCall>, elements: seq<VertexBufferElement>, stride: uint32,
                      sizeOf: ComponentType -> uint32)
    requires |head| == 2
    ensures |head + AttributeWalk(elements, stride, sizeOf, |elements|)| == 2 + 2 * |elements|
    ensures forall k :: 0 <= k < |elements| ==>
              (head + AttributeWalk(elements, stride, sizeOf, |elements|))[2 + 2 * k] ==
                EnableVertexAttribArray(Wrap32(k)) &&
              (head + AttributeWalk(elements, stride, sizeOf, |elements|))[3 + 2 * k] ==
                VertexAttribPointer(Wrap32(k), elements[k].count, elements[k].componentType,
                                    elements[k].normalized, stride, Wrap32(OffsetOf(elements, k, sizeOf)))
  {
    var walk := AttributeWalk(elements, stride, sizeOf, |elements|);
    AttributeWalkLength(elements, stride, sizeOf, |elements|);
    forall k | 0 <= k < |elements|
      ensures (head + walk)[2 + 2 * k] == EnableVertexAttribArray(Wrap32(k))
      ensures (head + walk)[3 + 2 * k] ==
                VertexAttribPointer(Wrap32(k), elements[k].count, elements[k].componentType,
                                    elements[k].normalized, stride, Wrap32(OffsetOf(elements, k, sizeOf)))
    {
      AttributeWalkAt(elements, stride, sizeOf, |elements|, k);
    }
  }

  /** One iteration of the walk: the running offset and index move on to the next element. */
  lemma WalkStep(elements: seq<VertexBufferElement>, sizeOf: ComponentType -> uint32, i: nat,
                 offset: uint32, index: uint32)
    requires i < |elements|
    requires offset == Wrap32(OffsetOf(elements, i, sizeOf)) && index == Wrap32(i)
    ensures Wrap32(offset as int + Wrap32(elements[i].count as int * sizeOf(elements[i].componentType) as int) as int)
            == Wrap32(OffsetOf(elements, i + 1, sizeOf))
    ensures Wrap32(index as int + 1) == Wrap32(i + 1)
  {
    OffsetStep(elements, i, sizeOf);
    WrapAddBoth(OffsetOf(elements, i, sizeOf), ByteSize(elements[i], sizeOf));
    WrapAddLeft(i, 1);
  }

  /** Appending element `i`'s two calls extends the walk by one element. */
  lemma WalkExtend(head: seq<GlCall>, elements: seq<VertexBufferElement>, stride: uint32,
                   sizeOf: ComponentType -> uint32, i: nat, offset: uint32, index: uint32)
    requires i < |elements|
    requires offset == Wrap32(OffsetOf(elements, i, sizeOf)) && index == Wrap32(i)
    ensures head + AttributeWalk(elements, stride, sizeOf, i)
              + [EnableVertexAttribArray(index),
                 VertexAttribPointer(index, elements[i].count, elements[i].componentType,
                                     elements[i].normalized, stride, offset)]
            == head + AttributeWalk(elements, stride, sizeOf, i + 1)
  {
    assert AttributeWalk(elements, stride, sizeOf, i + 1)
           == AttributeWalk(elements, stride, sizeOf, i) + AttributeCalls(elements, stride, sizeOf, i);
  }

  class VertexArray {

    constructor ()
    {
    }

    /**
     * `addBuffer(vb, layout)`: binds this array and the buffer, then
     * enables one attribute per layout element, in element order. Attribute
     * `i` gets index `i`, its element's count, type and flag, the layout's
     * stride, and the byte offset of the elements before it, all in
     * `unsigned int` arithmetic.
     */
    method AddBuffer(vb: VertexBuffer, layout: VertexBufferLayout) returns (calls: seq<GlCall>)
      ensures |calls| == 2 + 2 * |layout.elements|
      ensures calls[0] == BindVertexArray(this) && calls[1] == BindVertexBuffer(vb)
      ensures forall i :: 0 <= i < |layout.elements| ==>
                calls[2 + 2 * i] == EnableVertexAttribArray(Wrap32(i)) &&
                calls[3 + 2 * i] == VertexAttribPointer(Wrap32(i), layout.elements[i].count,
                                                        layout.elements[i].componentType,
                                                        layout.elements[i].normalized, layout.stride,
                                                        Wrap32(OffsetOf(layout.elements, i, layout.sizeOf)))
    {
      calls := [BindVertexArray(this), BindVertexBuffer(vb)];
      var elements := layout.GetElements();
      var offset: uint32 := 0;
      var index: uint32 := 0;
      var i := 0;
      while i < |elements|
        invariant 0 <= i <= |elements|
        invariant index == Wrap32(i)
        invariant offset == Wrap32(OffsetOf(elements, i, layout.sizeOf))
        invariant calls == [BindVertexArray(this), BindVertexBuffer(vb)]
                           + AttributeWalk(elements, layout.stride, layout.sizeOf, i)
      {
        var element := elements[i];
        WalkExtend([BindVertexArray(this), BindVertexBuffer(vb)], elements, layout.stride, layout.sizeOf,
                   i, offset, index);
        calls := calls + [EnableVertexAttribArray(index),
                          VertexAttribPointer(index, element.count, element.componentType,
                                              element.normalized, layout.GetStride(), offset)];
        WalkStep(elements, layout.sizeOf, i, offset, index);
        offset := Wrap32(offset as int + Wrap32(element.count as int * layout.sizeOf(element.componentType) as int) as int);
        index := Wrap32(index as int + 1);
        i := i + 1;
      }
      WalkPositions([BindVertexArray(this), BindVertexBuffer(vb)], elements, layout.stride, layout.sizeOf);
    }
  }
}
