/**
 * `VertexBufferLayout`: the ordered attribute descriptors of one interleaved
 * vertex format, and the byte arithmetic over them.
 *
 * `VertexBufferElement::getSizeOfType` is defined outside the files modelled
 * here, so the byte size of each component type is an uninterpreted function
 * `sizeOf` that the layout carries.
 */
module Layout {
  import opened Gl

  /** One attribute descriptor: component type, component count, normalised flag. */
  datatype VertexBufferElement = VertexBufferElement(componentType: ComponentType, count: uint32, normalized: bool)

  /** Bytes one element occupies per vertex, `count * getSizeOfType(type)`, before any wrap-around. */
  function ByteSize(e: VertexBufferElement, sizeOf: ComponentType -> uint32): (r: nat)
  {
    e.count as nat * sizeOf(e.componentType) as nat
  }

  /** Total byte size of a run of elements (peeled from the back, as a running sum grows). */
  function SizeSum(elements: seq<VertexBufferElement>, sizeOf: ComponentType -> uint32): (r: nat)
  {
    if elements == [] then 0
    else SizeSum(elements[..|elements| - 1], sizeOf) + ByteSize(elements[|elements| - 1], sizeOf)
  }

  /** The exact (unwrapped) byte offset of element `i`: the sizes of all elements before it. */
  function OffsetOf(elements: seq<VertexBufferElement>, i: nat, sizeOf: ComponentType -> uint32): (r: nat)
    requires i <= |elements|
  {
    SizeSum(elements[..i], sizeOf)
  }

  lemma {:induction false} SizeSumAppend(a: seq<VertexBufferElement>, b: seq<VertexBufferElement>,
                                          sizeOf: ComponentType -> uint32)
    ensures SizeSum(a + b, sizeOf) == SizeSum(a, sizeOf) + SizeSum(b, sizeOf)
  {
    if b == [] {
      assert a + b == a;
    } else {
      var b' := b[..|b| - 1];
      assert (a + b)[..|a + b| - 1] == a + b';
      SizeSumAppend(a, b', sizeOf);
    }
  }

  /** The first attribute starts at byte 0, and each next one right after its predecessor. */
  lemma OffsetStep(elements: seq<VertexBufferElement>, i: nat, sizeOf: ComponentType -> uint32)
    requires i < |elements|
    ensures OffsetOf(elements, 0, sizeOf) == 0
    ensures OffsetOf(elements, i + 1, sizeOf) == OffsetOf(elements, i, sizeOf) + ByteSize(elements[i], sizeOf)
  {
    assert elements[..i + 1][..i] == elements[..i];
  }

  /** Offsets never decrease along the layout, and every attribute ends within the vertex. */
  lemma {:induction false} OffsetWithinVertex(elements: seq<VertexBufferElement>, i: nat, j: nat,
                                               sizeOf: ComponentType -> uint32)
    requires i <= j <= |elements|
    ensures OffsetOf(elements, i, sizeOf) <= OffsetOf(elements, j, sizeOf)
    ensures i < |elements| ==> OffsetOf(elements, i, sizeOf) + ByteSize(elements[i], sizeOf) <= SizeSum(elements, sizeOf)
  {
    assert elements[..j] == elements[..i] + elements[i..j];
    SizeSumAppend(elements[..i], elements[i..j], sizeOf);
    assert elements == elements[..|elements|];
    if i < |elements| {
      OffsetStep(elements, i, sizeOf);
      assert elements == elements[..i + 1] + elements[i + 1..];
      SizeSumAppend(elements[..i + 1], elements[i + 1..], sizeOf);
    }
  }

  class VertexBufferLayout {
    var elements: seq<VertexBufferElement>
    var stride: uint32
    /** `VertexBufferElement::getSizeOfType`, left uninterpreted. */
    const sizeOf: ComponentType -> uint32

    /** The stride is the wrapped total byte size of the elements pushed so far. */
    ghost predicate Valid()
      reads this
    {
      stride == Wrap32(SizeSum(elements, sizeOf))
    }

    constructor (sizeOf: ComponentType -> uint32)
      ensures Valid()
      ensures elements == [] && stride == 0 && this.sizeOf == sizeOf
    {
      elements := [];
      stride := 0;
      this.sizeOf := sizeOf;
    }

    /** `getElements()`: the stored descriptors, in push order. */
    function GetElements(): (r: seq<VertexBufferElement>)
      reads this
      ensures r == elements
    {
      elements
    }

    /** `getStride()`: on a valid layout, the wrapped byte size of one whole vertex. */
    function GetStride(): (r: uint32)
      reads this
      ensures Valid() ==> r == Wrap32(SizeSum(GetElements(), sizeOf))
      ensures Valid() && SizeSum(GetElements(), sizeOf) < U32 ==> r as int == SizeSum(GetElements(), sizeOf)
    {
      stride
    }

    /**
     * `Push<T>(count)` for one of the three supported `T`: appends a
     * descriptor and grows the stride by its byte size, in `unsigned int`
     * arithmetic.
     */
    method Push(componentType: ComponentType, count: uint32, normalized: bool)
      requires Valid()
      modifies this
      ensures Valid()
      ensures elements == old(elements) + [VertexBufferElement(componentType, count, normalized)]
      ensures stride == Wrap32(old(stride) as int + Wrap32(count as int * sizeOf(componentType) as int) as int)
    {
      var e := VertexBufferElement(componentType, count, normalized);
      ghost var before := elements;
      elements := elements + [e];
      stride := Wrap32(stride as int + Wrap32(count as int * sizeOf(componentType) as int) as int);
      assert elements[..|elements| - 1] == before;
      WrapAddBoth(SizeSum(before, sizeOf), ByteSize(e, sizeOf));
    }
  }
}
