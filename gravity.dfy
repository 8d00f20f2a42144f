/**
 * The gravity sample's scene (src/apps/sample/2d/gravity.hpp): two bodies
 * drawn with a 22-sided circle sprite and a GRID_COUNT x GRID_COUNT field of
 * arrows drawn with a square sprite, every one of them a game object of the
 * manager. The systems that later move the bodies and turn the arrows are
 * not part of this model.
 */
module GravityScene {
  import opened Common
  import opened GameObjects
  import Mesh
  import Sprites

  /** Arrows per side of the vector field. */
  const GRID_COUNT: nat := 30

  /** Sides of the circle sprite. */
  const CIRCLE_SIDES: nat := 22

  const FIELD_OBJECTS: nat := GRID_COUNT * GRID_COUNT

  /** Objects loadGameObjects creates: the two bodies, then the field. */
  const SCENE_OBJECTS: nat := 2 + FIELD_OBJECTS

  /** The centre of field cell i along one axis: GRID_COUNT cells of width
   *  2 / GRID_COUNT across [-1, 1]. */
  function FieldCoordinate(i: nat): real
  {
    -1.0 + (i as real + 0.5) * 2.0 / GRID_COUNT as real
  }

  /** Every cell centre lies strictly inside [-1, 1], further along for a
   *  later cell. */
  lemma FieldCoordinates(i: nat, j: nat)
    requires i < GRID_COUNT && j < GRID_COUNT
    ensures -1.0 < FieldCoordinate(i) < 1.0
    ensures i < j ==> FieldCoordinate(i) < FieldCoordinate(j)
  {
  }

  /** A physics body: the circle sprite at scale .05 with its own position,
   *  colour and velocity; it is not part of the field. The two values given
   *  for the translation set its x and y; depth, rotation and mass keep the
   *  created object's defaults. */
  predicate IsBody(o: GameObject, id: Id, translation: Vec2, color: Vec3, velocity: Vec2, circle: Mesh.Model)
  {
    o.id == id && !o.isVectorField && o.model == Some(circle) &&
    o.transform2d.scale == Vec2(0.05, 0.05) &&
    o.transform2d.translation.x == translation.x && o.transform2d.translation.y == translation.y &&
    o.color == color && o.rigidBody2d.velocity == velocity &&
    o.transform2d.translation.z == 0.0 && o.transform2d.rotation == 0.0 && o.rigidBody2d.mass == 1.0
  }

  /** Arrow k of the field, k = i * GRID_COUNT + j: the white square sprite at
   *  scale .005 in the centre of cell (i, j), flagged as a field object. */
  predicate IsArrow(o: GameObject, id: Id, k: nat, square: Mesh.Model)
  {
    var i, j := k / GRID_COUNT, k % GRID_COUNT;
    o.id == id && o.isVectorField && o.model == Some(square) &&
    o.transform2d.scale == Vec2(0.005, 0.005) &&
    o.transform2d.translation.x == FieldCoordinate(i) && o.transform2d.translation.y == FieldCoordinate(j) &&
    o.color == Vec3(1.0, 1.0, 1.0)
  }

  /** The objects base, base + 1, ..., base + n - 1 are the first n arrows. */
  predicate Arrows(objects: map<Id, GameObject>, base: Id, n: nat, square: Mesh.Model)
  {
    forall id :: base <= id < base + n ==> id in objects && IsArrow(objects[id], id, id - base, square)
  }

  /** Every object of `after` was in `before` or has an id in [lo, hi). */
  predicate AddedOnly(before: map<Id, GameObject>, after: map<Id, GameObject>, lo: Id, hi: Id)
  {
    forall id :: id in after ==> id in before || lo <= id < hi
  }

  /** The inner loop's object for cell (i, j), made of a created object o:
   *  arrow i * GRID_COUNT + j of the field. */
  function Arrow(o: GameObject, i: nat, j: nat, square: Mesh.Model): (a: GameObject)
    requires i < GRID_COUNT && j < GRID_COUNT
    ensures IsArrow(a, o.id, i * GRID_COUNT + j, square)
  {
    assert (i * GRID_COUNT + j) / GRID_COUNT == i && (i * GRID_COUNT + j) % GRID_COUNT == j;
    o.(transform2d := o.transform2d.(scale := Vec2(0.005, 0.005),
                                     translation := o.transform2d.translation.(x := FieldCoordinate(i), y := FieldCoordinate(j))),
       color := Vec3(1.0, 1.0, 1.0), model := Some(square), isVectorField := true)
  }

  /** The field loops so far, over values: the first n arrows follow the ids
   *  from first on, their ids are appended to the field list, the next free
   *  id follows them, and no other object changed. */
  ghost predicate FieldPlaced(objects: map<Id, GameObject>, currentId: Id, field: seq<Id>,
                              first: Id, fieldBefore: seq<Id>, objects0: map<Id, GameObject>, n: nat, square: Mesh.Model)
  {
    currentId == first + n && first + FIELD_OBJECTS <= MAX_GAME_OBJECTS &&
    field == fieldBefore + Ids(first, n) &&
    Arrows(objects, first, n, square) &&
    Kept(objects0, objects) && AddedOnly(objects0, objects, first, first + n)
  }

  /** Adding arrow n under the next free id extends the field by one and
   *  keeps every earlier object. */
  lemma FieldStep(objects: map<Id, GameObject>, field: seq<Id>, first: Id, fieldBefore: seq<Id>,
                  objects0: map<Id, GameObject>, n: nat, square: Mesh.Model, a: GameObject)
    requires FieldPlaced(objects, first + n, field, first, fieldBefore, objects0, n, square)
    requires first + n !in objects && IsArrow(a, first + n, n, square) && n < FIELD_OBJECTS
    ensures FieldPlaced(objects[first + n := a], first + n + 1, field + [first + n], first, fieldBefore, objects0, n + 1, square)
  {
    IdsAppend(fieldBefore, first, n, 1);
  }

  /** The two bodies under ids first and first + 1: the blue one at (.5, .5)
   *  moving left, the red one at (-.45, -.25) moving right. */
  predicate Bodies(objects: map<Id, GameObject>, first: Id, circle: Mesh.Model)
  {
    first in objects && first + 1 in objects &&
    IsBody(objects[first], first, Vec2(0.5, 0.5), Vec3(0.0, 0.0, 1.0), Vec2(-0.5, 0.0), circle) &&
    IsBody(objects[first + 1], first + 1, Vec2(-0.45, -0.25), Vec3(1.0, 0.0, 0.0), Vec2(0.5, 0.0), circle)
  }

  /** The whole scene from id first on: the two bodies, then the field. */
  predicate Scene(objects: map<Id, GameObject>, first: Id, square: Mesh.Model, circle: Mesh.Model)
  {
    Bodies(objects, first, circle) && Arrows(objects, first + 2, FIELD_OBJECTS, square)
  }

  /** Of the SCENE_OBJECTS objects of a scene exactly the field's are flagged
   *  as vector-field objects. */
  lemma SceneFlags(objects: map<Id, GameObject>, first: Id, square: Mesh.Model, circle: Mesh.Model)
    requires Scene(objects, first, square, circle)
    ensures forall id :: first <= id < first + SCENE_OBJECTS ==>
      id in objects && (objects[id].isVectorField <==> id >= first + 2)
  {
    forall id | first <= id < first + SCENE_OBJECTS
      ensures id in objects && (objects[id].isVectorField <==> id >= first + 2)
    {
      if id >= first + 2 {
        assert IsArrow(objects[id], id, id - (first + 2), square);
      }
    }
  }

  /** No two arrows of the field stand at the same place. */
  lemma ArrowsApart(objects: map<Id, GameObject>, base: Id, square: Mesh.Model, k1: nat, k2: nat)
    requires Arrows(objects, base, FIELD_OBJECTS, square) && k1 < FIELD_OBJECTS && k2 < FIELD_OBJECTS && k1 != k2
    ensures objects[base + k1].transform2d.translation != objects[base + k2].transform2d.translation
  {
    var i1, j1, i2, j2 := k1 / GRID_COUNT, k1 % GRID_COUNT, k2 / GRID_COUNT, k2 % GRID_COUNT;
    assert i1 < GRID_COUNT && i2 < GRID_COUNT;
    assert IsArrow(objects[base + k1], base + k1, k1, square);
    assert IsArrow(objects[base + k2], base + k2, k2, square);
    if i1 == i2 {
      assert j1 != j2;
      FieldCoordinates(j1, j2);
      FieldCoordinates(j2, j1);
    } else {
      FieldCoordinates(i1, i2);
      FieldCoordinates(i2, i1);
    }
  }

  class Gravity {
    const gom: GameObjectManager
    var physObjects: seq<Id>
    var vectorField: seq<Id>

    constructor (gom: GameObjectManager)
      ensures this.gom == gom && physObjects == [] && vectorField == []
    {
      this.gom := gom;
      physObjects := [];
      vectorField := [];
    }

    /** The field loops so far: the first n arrows follow the ids from first on,
     *  their ids are appended to vectorField, and no other object changed. */
    ghost predicate Placing(first: Id, fieldBefore: seq<Id>, objects0: map<Id, GameObject>, n: nat, square: Mesh.Model)
      reads this, gom
    {
      gom.Valid() && FieldPlaced(gom.gameObjects, gom.currentId, vectorField, first, fieldBefore, objects0, n, square)
    }

    /** loadGameObjects: the square sprite offset by (.5, 1, 0), the circle
     *  sprite of CIRCLE_SIDES sides (whose rim points `rim` are given), the blue
     *  and the red body, then the field, column by column. The sprites are
     *  returned so that the scene can be stated against them. */
    method LoadGameObjects(rim: seq<Mesh.Vertex>, squareVertexBuffer: Handle, squareIndexBuffer: Handle,
                           circleVertexBuffer: Handle, circleIndexBuffer: Handle)
      returns (square: Mesh.Model, circle: Mesh.Model)
      requires |rim| == CIRCLE_SIDES
      requires gom.Valid() && gom.currentId + SCENE_OBJECTS <= MAX_GAME_OBJECTS
      modifies this, gom
      ensures gom.Valid() && gom.currentId == old(gom.currentId) + SCENE_OBJECTS
      ensures square.vertexCount == 4 && square.indexCount == 6
      ensures circle.vertexCount == circle.indexCount == 3 * CIRCLE_SIDES
      ensures physObjects == old(physObjects) + [old(gom.currentId), old(gom.currentId) + 1]
      ensures vectorField == old(vectorField) + Ids(old(gom.currentId) + 2, FIELD_OBJECTS)
      ensures Scene(gom.gameObjects, old(gom.currentId), square, circle)
      ensures forall id :: old(gom.currentId) <= id < gom.currentId ==>
        id in gom.gameObjects && (gom.gameObjects[id].isVectorField <==> id >= old(gom.currentId) + 2)
      ensures Kept(old(gom.gameObjects), gom.gameObjects)
      ensures AddedOnly(old(gom.gameObjects), gom.gameObjects, old(gom.currentId), gom.currentId)
    {
      var squareVertices, squareIndices := Sprites.SquareMesh(Vec3(0.5, 1.0, 0.0));
      square := Mesh.CreateModel(|squareVertices|, |squareIndices|, Mesh.NoAttachment,
                                 squareVertexBuffer, squareIndexBuffer).value;
      var circleSprite := Sprites.CreateCircleSprite(rim, circleVertexBuffer, circleIndexBuffer);
      circle := circleSprite.value;

      ghost var first: Id, objects0 := gom.currentId, gom.gameObjects;
      AddBodies(circle);
      ghost var objects2 := gom.gameObjects;
      AddField(square);
      KeptTrans(objects0, objects2, gom.gameObjects);
      assert gom.gameObjects[first] == objects2[first] && gom.gameObjects[first + 1] == objects2[first + 1];
      SceneFlags(gom.gameObjects, first, square, circle);
    }

    /** The blue and the red body, in that order, appended to physObjects. */
    method AddBodies(circle: Mesh.Model)
      requires gom.Valid() && gom.currentId + 2 <= MAX_GAME_OBJECTS
      modifies this`physObjects, gom
      ensures gom.Valid() && gom.currentId == old(gom.currentId) + 2
      ensures physObjects == old(physObjects) + [old(gom.currentId), old(gom.currentId) + 1]
      ensures Bodies(gom.gameObjects, old(gom.currentId), circle)
      ensures Kept(old(gom.gameObjects), gom.gameObjects)
      ensures AddedOnly(old(gom.gameObjects), gom.gameObjects, old(gom.currentId), gom.currentId)
    {
      var blue := AddBody(Vec2(0.5, 0.5), Vec3(0.0, 0.0, 1.0), Vec2(-0.5, 0.0), circle);
      ghost var objects1 := gom.gameObjects;
      var red := AddBody(Vec2(-0.45, -0.25), Vec3(1.0, 0.0, 0.0), Vec2(0.5, 0.0), circle);
      assert gom.gameObjects[blue] == objects1[blue];
    }

    /** One body: a created object given the circle sprite, scale .05, a
     *  position, a colour and a velocity, appended to physObjects. */
    method AddBody(translation: Vec2, color: Vec3, velocity: Vec2, circle: Mesh.Model) returns (id: Id)
      requires gom.Valid() && gom.currentId < MAX_GAME_OBJECTS
      modifies this`physObjects, gom
      ensures gom.Valid() && id == old(gom.currentId) && gom.currentId == id + 1
      ensures physObjects == old(physObjects) + [id]
      ensures id !in old(gom.gameObjects) && id in gom.gameObjects
      ensures gom.gameObjects == old(gom.gameObjects)[id := gom.gameObjects[id]]
      ensures IsBody(gom.gameObjects[id], id, translation, color, velocity, circle)
    {
      id := gom.CreateGameObject();
      var o := gom.gameObjects[id];
      gom.Update(o.(transform2d := o.transform2d.(scale := Vec2(0.05, 0.05),
                                                  translation := o.transform2d.translation.(x := translation.x, y := translation.y)),
                    color := color, rigidBody2d := o.rigidBody2d.(velocity := velocity), model := Some(circle)));
      physObjects := physObjects + [id];
    }

    /** The nested loops of loadGameObjects: arrow (i, j) for every column i
     *  and, within it, every row j. */
    method AddField(square: Mesh.Model)
      requires gom.Valid() && gom.currentId + FIELD_OBJECTS <= MAX_GAME_OBJECTS
      modifies this`vectorField, gom
      ensures gom.Valid() && gom.currentId == old(gom.currentId) + FIELD_OBJECTS
      ensures vectorField == old(vectorField) + Ids(old(gom.currentId), FIELD_OBJECTS)
      ensures Arrows(gom.gameObjects, old(gom.currentId), FIELD_OBJECTS, square)
      ensures Kept(old(gom.gameObjects), gom.gameObjects)
      ensures AddedOnly(old(gom.gameObjects), gom.gameObjects, old(gom.currentId), gom.currentId)
    {
      ghost var first: Id, fieldBefore, objects0 := gom.currentId, vectorField, gom.gameObjects;
      assert vectorField == fieldBefore + Ids(first, 0);
      for i := 0 to GRID_COUNT
        invariant Placing(first, fieldBefore, objects0, i * GRID_COUNT, square)
      {
        for j := 0 to GRID_COUNT
          invariant Placing(first, fieldBefore, objects0, i * GRID_COUNT + j, square)
        {
          AddArrow(i, j, first, fieldBefore, objects0, square);
        }
      }
    }

    /** One pass of the inner loop: arrow (i, j) is created and appended. */
    method AddArrow(i: nat, j: nat, ghost first: Id, ghost fieldBefore: seq<Id>, ghost objects0: map<Id, GameObject>,
                    square: Mesh.Model)
      requires i < GRID_COUNT && j < GRID_COUNT
      requires Placing(first, fieldBefore, objects0, i * GRID_COUNT + j, square)
      modifies this`vectorField, gom
      ensures Placing(first, fieldBefore, objects0, i * GRID_COUNT + j + 1, square)
    {
      ghost var n := i * GRID_COUNT + j;
      ghost var before, field := gom.gameObjects, vectorField;
      var id := gom.CreateGameObject();
      var arrow := Arrow(gom.gameObjects[id], i, j, square);
      FieldStep(before, field, first, fieldBefore, objects0, n, square, arrow);
      gom.Update(arrow);
      vectorField := vectorField + [id];
      assert gom.gameObjects == before[first + n := arrow] && gom.currentId == first + n + 1 && vectorField == field + [first + n];
    }
  }
}
