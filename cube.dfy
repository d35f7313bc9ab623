/**
 * `Cube::build`: appends the six face records of a cube to the caller's
 * object list, each with an id from its own `createCube` call.
 *
 * `Graphicsengine.hpp` declares no `createCube`. It is modelled as an id
 * source that hands out ids the way `createQuad` does (`nextId++`); any
 * resources it would build are not modelled.
 */
module Cube {
  import opened Gl
  import Engine

  /** The fields of a scene object that `build` sets. */
  datatype ScreenObject = ScreenObject(id: Engine.ObjectId, model: Mat4, color: Vec4, isCubeFace: bool)

  datatype Face = Front | Back | Left | Right | Top | Bottom

  /** The order in which `build` adds the faces. */
  const Faces: seq<Face> := [Front, Back, Left, Right, Top, Bottom]

  /** Each face is pushed `s = 0.2` out along its own z axis. */
  const FaceOffset: real := 0.2

  /** Every face is drawn opaque black. */
  const FaceColor: Vec4 := Vec4(0.0, 0.0, 0.0, 1.0)

  /** The texture every face is created with. */
  const CubeTexture: string := "res/textures/codethakur.png"

  /**
   * A face's model matrix: a rotation about the origin that turns the front
   * face onto this face (none for the front), then the push outwards.
   */
  function FaceModel(f: Face): (m: Mat4)
    ensures m.Translate? && m.offset == Vec3(0.0, 0.0, FaceOffset)
    ensures f == Front <==> m.base == Identity
    ensures f in {Back, Left, Right} ==> m.base.Rotate? && m.base.axis == Vec3(0.0, 1.0, 0.0)
    ensures f in {Top, Bottom} ==> m.base.Rotate? && m.base.axis == Vec3(1.0, 0.0, 0.0)
  {
    var push := Vec3(0.0, 0.0, FaceOffset);
    match f
    case Front => Translate(Identity, push)
    case Back => Translate(Rotate(Identity, 180.0, Vec3(0.0, 1.0, 0.0)), push)
    case Left => Translate(Rotate(Identity, -90.0, Vec3(0.0, 1.0, 0.0)), push)
    case Right => Translate(Rotate(Identity, 90.0, Vec3(0.0, 1.0, 0.0)), push)
    case Top => Translate(Rotate(Identity, -90.0, Vec3(1.0, 0.0, 0.0)), push)
    case Bottom => Translate(Rotate(Identity, 90.0, Vec3(1.0, 0.0, 0.0)), push)
  }

  /** The record `build` appends for the `j`-th face, which received the `j`-th id. */
  function FaceRecords(ids: seq<Engine.ObjectId>): (r: seq<ScreenObject>)
    requires |ids| == |Faces|
  {
    seq(|Faces|, j requires 0 <= j < |Faces| => ScreenObject(ids[j], FaceModel(Faces[j]), FaceColor, true))
  }

  /**
   * The six records are cube faces in black, carry the ids in allocation
   * order, and have pairwise different placements.
   */
  lemma FaceRecordsFacts(ids: seq<Engine.ObjectId>)
    requires |ids| == |Faces|
    ensures |FaceRecords(ids)| == 6
    ensures forall j :: 0 <= j < 6 ==>
              FaceRecords(ids)[j].isCubeFace && FaceRecords(ids)[j].color == FaceColor &&
              FaceRecords(ids)[j].id == ids[j]
    ensures forall i, j :: 0 <= i < j < 6 ==> FaceRecords(ids)[i].model != FaceRecords(ids)[j].model
  {
    forall i, j | 0 <= i < j < 6 ensures FaceModel(Faces[i]) != FaceModel(Faces[j]) {
      FacesListed(i, j);
    }
  }

  /** Different positions of `Faces` hold different faces, with different models. */
  lemma FacesListed(i: int, j: int)
    requires 0 <= i < j < |Faces|
    ensures Faces[i] != Faces[j]
    ensures FaceModel(Faces[i]) != FaceModel(Faces[j])
  {
    var m, n := FaceModel(Faces[i]), FaceModel(Faces[j]);
    assert m.base.Rotate? && n.base.Rotate? ==> (m.base.degrees, m.base.axis) != (n.base.degrees, n.base.axis);
  }

  /** The caller's `std::vector<ScreenObjeect>`, grown by `push_back`. */
  class ObjectList {
    var items: seq<ScreenObject>

    constructor (items: seq<ScreenObject>)
      ensures this.items == items
    {
      this.items := items;
    }

    method PushBack(o: ScreenObject)
      modifies this
      ensures items == old(items) + [o]
    {
      items := items + [o];
    }
  }

  /** The id source behind `gfx.createCube(path)`: the counter of the next id. */
  class CubeIds {
    var next: Engine.ObjectId

    constructor (next: Engine.ObjectId)
      ensures this.next == next
    {
      this.next := next;
    }

    /** `createCube(path)`: returns the current id and advances the counter, as `nextId++` does. */
    method CreateCube(texturePath: string) returns (id: Engine.ObjectId)
      modifies this
      ensures id == old(next) && next == Engine.NextId(old(next))
    {
      id := next;
      next := Engine.NextId(next);
    }
  }

  /** `addFace(model, color)`: one cube-face record with a fresh id from `gfx`, appended to `out`. */
  method AddFace(out: ObjectList, gfx: CubeIds, model: Mat4, color: Vec4)
    modifies out, gfx
    ensures out.items == old(out.items) + [ScreenObject(old(gfx.next), model, color, true)]
    ensures gfx.next == Engine.NextId(old(gfx.next))
  {
    var id := gfx.CreateCube(CubeTexture);
    var o := ScreenObject(id, model, color, true);
    out.PushBack(o);
  }

  /** The six ids of one `build` carry no repeats while the counter does not wrap. */
  lemma FaceIdsDistinct(next: Engine.ObjectId)
    requires next as int + |Faces| <= U32
    ensures forall i, j :: 0 <= i < j < |Faces| ==>
              FaceRecords(Engine.SuccessiveIds(next, |Faces|))[i].id != FaceRecords(Engine.SuccessiveIds(next, |Faces|))[j].id
  {
    var ids := Engine.SuccessiveIds(next, |Faces|);
    Engine.SuccessiveIdsIncrease(next, |Faces|);
    FaceRecordsFacts(ids);
  }

  /**
   * `Cube::build(out, gfx)`: appends front, back, left, right, top and bottom,
   * in that order, each with the id of its own `createCube` call: the six
   * successive ids from `gfx`'s counter, which ends one past the last. The
   * records already in `out` stay in place.
   */
  method Build(out: ObjectList, gfx: CubeIds)
    modifies out, gfx
    ensures out.items == old(out.items) + FaceRecords(Engine.SuccessiveIds(old(gfx.next), |Faces|))
    ensures gfx.next == Engine.NextId(Engine.SuccessiveIds(old(gfx.next), |Faces|)[5])
    ensures |out.items| == |old(out.items)| + 6 && out.items[..|old(out.items)|] == old(out.items)
    ensures old(gfx.next) as int + 6 <= U32 ==>
              forall i, j :: |old(out.items)| <= i < j < |out.items| ==> out.items[i].id != out.items[j].id
  {
    ghost var i0 := gfx.next;
    AddFace(out, gfx, FaceModel(Front), FaceColor);
    ghost var i1 := gfx.next;
    AddFace(out, gfx, FaceModel(Back), FaceColor);
    ghost var i2 := gfx.next;
    AddFace(out, gfx, FaceModel(Left), FaceColor);
    ghost var i3 := gfx.next;
    AddFace(out, gfx, FaceModel(Right), FaceColor);
    ghost var i4 := gfx.next;
    AddFace(out, gfx, FaceModel(Top), FaceColor);
    ghost var i5 := gfx.next;
    AddFace(out, gfx, FaceModel(Bottom), FaceColor);
    ghost var ids := Engine.SuccessiveIds(i0, 6);
    assert Engine.SuccessiveIds(i5, 1) == [i5];
    assert Engine.SuccessiveIds(i3, 3) == [i3, i4] + Engine.SuccessiveIds(i5, 1);
    assert ids == [i0, i1, i2] + Engine.SuccessiveIds(i3, 3);
    ghost var added := out.items[|old(out.items)|..];
    assert out.items == old(out.items) + added;
    assert added == FaceRecords(ids);
    if i0 as int + 6 <= U32 {
      FaceIdsDistinct(i0);
    }
  }
}
