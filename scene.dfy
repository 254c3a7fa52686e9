/**
 * The scene records of src/WorldObject.h and src/Light.h and the object list
 * that init builds in src/main.cpp: a 10 x 10 grid of bunnies and teapots,
 * then the sun marker, then the floor.
 */
module Scene {
  import opened Geometry

  /** The four shared meshes init loads: bunny.obj, teapot.obj, cube.obj and sphere.obj. */
  datatype Mesh = Bunny | Teapot | Cube | Sphere

  /** The lowest vertex y of each loaded mesh (Shape::lowest_y); its value comes from the mesh files. */
  datatype LowestY = LowestY(bunny: real, teapot: real, cube: real, sphere: real) {
    function Of(m: Mesh): real {
      match m
      case Bunny => bunny
      case Teapot => teapot
      case Cube => cube
      case Sphere => sphere
    }
  }

  datatype WorldObject = WorldObject(
    rotate: Vec3,
    translate: Vec3,
    scale: Vec3,
    shape: Mesh,
    ambient: Vec3,
    diffuse: Vec3,
    specular: Vec3,
    shiny: real)

  datatype Light = Light(position: Vec3, color: Vec3)

  /** The randomly drawn part of a grid object's material. */
  datatype Finish = Finish(diffuse: Vec3, specular: Vec3, shiny: real)

  const Origin: Vec3 := Vec3(0.0, 0.0, 0.0)
  const Ones: Vec3 := Vec3(1.0, 1.0, 1.0)

  /** The object the grid loop adds at row i, column j. */
  function GridObject(i: nat, j: nat, f: Finish): WorldObject {
    WorldObject(
      Origin,
      Vec3((2 * i) as real, 0.0, (2 * j) as real),
      Ones,
      if (i + j) % 2 == 0 then Bunny else Teapot,
      Vec3(0.2, 0.2, 0.2),
      f.diffuse, f.specular, f.shiny)
  }

  /** Row i of the grid, the objects the inner loop adds; object 10 * i + j draws finish(10 * i + j). */
  function Row(finish: nat -> Finish, i: nat): (r: seq<WorldObject>)
    ensures |r| == 10
  {
    seq(10, j requires 0 <= j < 10 => GridObject(i, j, finish(10 * i + j)))
  }

  /** The first n rows of the grid, in the order the outer loop adds them. */
  function GridRows(finish: nat -> Finish, n: nat): seq<WorldObject> {
    if n == 0 then [] else GridRows(finish, n - 1) + Row(finish, n - 1)
  }

  const SunObject: WorldObject :=
    WorldObject(Origin, Vec3(10.0, 10.0, 10.0), Ones, Sphere,
                Vec3(1.0, 1.0, 0.0), Origin, Origin, 1.0)

  const FloorObject: WorldObject :=
    WorldObject(Origin, Vec3(10.0, 0.0, 10.0), Vec3(25.0, 0.0, 25.0), Cube,
                Vec3(0.5, 0.5, 0.5), Origin, Origin, 1.0)

  /** The light init creates. */
  const Sun: Light := Light(Vec3(10.0, 10.0, 10.0), Vec3(0.8, 0.8, 0.8))

  /** Everything init appends, in order. */
  function SceneObjects(finish: nat -> Finish): seq<WorldObject> {
    GridRows(finish, 10) + [SunObject, FloorObject]
  }

  /** The object at index 10 * i + j of the first n rows is the grid cell (i, j). */
  lemma {:induction false} GridRowsCell(finish: nat -> Finish, n: nat, i: nat, j: nat)
    requires i < n && j < 10
    ensures |GridRows(finish, n)| == 10 * n
    ensures GridRows(finish, n)[10 * i + j] == GridObject(i, j, finish(10 * i + j))
  {
    GridRowsLength(finish, n - 1);
    if i < n - 1 {
      GridRowsCell(finish, n - 1, i, j);
    }
  }

  lemma {:induction false} GridRowsLength(finish: nat -> Finish, n: nat)
    ensures |GridRows(finish, n)| == 10 * n
  {
    if n > 0 {
      GridRowsLength(finish, n - 1);
    }
  }

  /**
   * Grid cell (i, j) sits at index 10 * i + j, at (2i, 0, 2j), unscaled, and is
   * a bunny exactly when i + j is even, a teapot otherwise.
   */
  lemma GridCell(finish: nat -> Finish, i: nat, j: nat)
    requires i < 10 && j < 10
    ensures SceneObjects(finish)[10 * i + j].translate == Vec3((2 * i) as real, 0.0, (2 * j) as real)
    ensures SceneObjects(finish)[10 * i + j].scale == Ones
    ensures SceneObjects(finish)[10 * i + j].shape == Bunny <==> (i + j) % 2 == 0
    ensures SceneObjects(finish)[10 * i + j].shape == Teapot <==> (i + j) % 2 == 1
    ensures SceneObjects(finish)[10 * i + j] == GridObject(i, j, finish(10 * i + j))
  {
    GridRowsCell(finish, 10, i, j);
  }

  /**
   * The list has 102 entries: the grid at 0..99, the sun at 100 and the floor
   * at 101, so render's size()-1, size()-2 and i < size()-2 name the floor, the
   * sun and exactly the grid.
   */
  lemma SceneLayout(finish: nat -> Finish)
    ensures |SceneObjects(finish)| == 102
    ensures SceneObjects(finish)[|SceneObjects(finish)| - 2] == SunObject
    ensures SceneObjects(finish)[|SceneObjects(finish)| - 1] == FloorObject
    ensures forall k :: 0 <= k < |SceneObjects(finish)| - 2 ==>
              SceneObjects(finish)[k].shape in {Bunny, Teapot} && SceneObjects(finish)[k].scale == Ones
  {
    var s := SceneObjects(finish);
    GridRowsLength(finish, 10);
    forall k | 0 <= k < |s| - 2
      ensures s[k].shape in {Bunny, Teapot} && s[k].scale == Ones
    {
      GridRowsCell(finish, 10, k / 10, k % 10);
    }
  }
}
