/**
 * The viewer logic of src/main.cpp that is not OpenGL plumbing: the global
 * state (camera, key toggles, object list, light), the character callback,
 * the scene set-up in init, the matrix-stack discipline of render, and the
 * row-stride arithmetic of saveImage.
 */
module Viewer {
  import opened Geometry
  import opened Transforms
  import opened Cameras
  import opened Scene

  const KeyW: nat := 'w' as int
  const KeyS: nat := 's' as int
  const KeyA: nat := 'a' as int
  const KeyD: nat := 'd' as int
  const KeyLowerZ: nat := 'z' as int
  const KeyUpperZ: nat := 'Z' as int

  /** The keys whose case ends in a break before the default branch. */
  predicate NavigationKey(key: nat) {
    key == KeyW || key == KeyS || key == KeyA || key == KeyD || key == KeyLowerZ
  }

  /** keyToggles with entry k negated. */
  function Flip(toggles: seq<bool>, k: nat): (r: seq<bool>)
    requires k < |toggles|
    ensures |r| == |toggles|
    ensures r[k] == !toggles[k]
    ensures forall j :: 0 <= j < |toggles| && j != k ==> r[j] == toggles[j]
  {
    toggles[k := !toggles[k]]
  }

  /** Pressing a toggling key twice restores every toggle. */
  lemma FlipTwice(toggles: seq<bool>, k: nat)
    requires k < |toggles|
    ensures Flip(Flip(toggles, k), k) == toggles
  {
  }

  /** What one draw call receives from the stacks: which object, and the P and MV tops. */
  datatype Draw = Draw(index: nat, projection: Matrix, modelView: Matrix)

  /** The model-view top for an object drawn with its own translation and scale only. */
  function Placed(view: Matrix, o: WorldObject): Matrix {
    Then(Then(view, TranslateBy(o.translate)), ScaleBy(o.scale))
  }

  /** The model-view top for a grid object: placed, lifted by its mesh's lowest y times the pulse, scaled by the pulse. */
  function Pulsed(view: Matrix, o: WorldObject, pulse: real, lowestY: LowestY): Matrix {
    Then(Then(Placed(view, o), TranslateBy(Lift(o, pulse, lowestY))), ScaleBy(Vec3(pulse, pulse, pulse)))
  }

  /** How far a grid object is raised so that its scaled mesh rests on y = 0. */
  function Lift(o: WorldObject, pulse: real, lowestY: LowestY): Vec3 {
    Vec3(0.0, (0.0 - lowestY.Of(o.shape)) * pulse, 0.0)
  }

  /** The padded row size saveImage reads pixels with, and the buffer it allocates. */
  method SaveImageLayout(width: int, height: int) returns (stride: int, bufferSize: int)
    requires width >= 0 && height >= 0
    ensures stride % 4 == 0
    ensures 3 * width <= stride < 3 * width + 4
    ensures bufferSize == stride * height
  {
    var nrChannels := 3;
    stride := nrChannels * width;
    stride := stride + (if stride % 4 != 0 then 4 - stride % 4 else 0);
    bufferSize := stride * height;
  }

  /** The program's global state. */
  class App {
    var camera: Camera?
    const keyToggles: array<bool>
    var wobjs: seq<WorldObject>
    var sun: Light

    /** The globals before init: no camera, no objects, all toggles off, a default light. */
    constructor ()
      ensures camera == null && wobjs == [] && sun == Light(Origin, Origin)
      ensures fresh(keyToggles) && keyToggles.Length == 256
      ensures forall k :: 0 <= k < 256 ==> !keyToggles[k]
    {
      camera := null;
      keyToggles := new bool[256](_ => false);
      wobjs := [];
      sun := Light(Origin, Origin);
    }

    /** The top of P when render draws: the identity times the camera's perspective. */
    function FrameProjection(): Matrix
      reads this, camera
      requires camera != null
    {
      Then(Identity, camera.Projection())
    }

    /** The top of MV under every object: the identity times the camera's look-at. */
    function FrameView(trig: Trig): Matrix
      reads this, camera
      requires camera != null
    {
      Then(Identity, camera.View(trig))
    }

    /**
     * Sets up the light, a fresh camera, and appends the grid (row by row),
     * the sun marker and the floor to the object list.
     */
    method Init(finish: nat -> Finish)
      modifies this
      ensures sun == Sun
      ensures camera != null && fresh(camera) && camera.Valid()
      ensures camera.aspect == 1.0 && camera.fovy == Radians(45.0)
      ensures camera.znear == 0.1 && camera.zfar == 1000.0
      ensures camera.worldPos == Vec3(1.0, 2.0, 1.0) && camera.yaw == 0.0 && camera.pitch == 0.0
      ensures wobjs == old(wobjs) + SceneObjects(finish)
    {
      sun := Sun;
      camera := new Camera();
      var i := 0;
      while i < 10
        modifies this`wobjs
        invariant 0 <= i <= 10
        invariant wobjs == old(wobjs) + GridRows(finish, i)
      {
        var j := 0;
        while j < 10
          modifies this`wobjs
          invariant 0 <= j <= 10
          invariant wobjs == old(wobjs) + GridRows(finish, i) + Row(finish, i)[..j]
        {
          var translation := Vec3((i * 2) as real, 0.0, (j * 2) as real);
          var f := finish(10 * i + j);
          var shape := if (i + j) % 2 == 0 then Bunny else Teapot;
          var wobj := WorldObject(Origin, translation, Ones, shape, Vec3(0.2, 0.2, 0.2),
                                  f.diffuse, f.specular, f.shiny);
          ghost var row := Row(finish, i);
          assert wobj == row[j];
          assert row[..j + 1] == row[..j] + [wobj];
          wobjs := wobjs + [wobj];
          j := j + 1;
        }
        assert Row(finish, i)[..10] == Row(finish, i);
        assert GridRows(finish, i + 1) == GridRows(finish, i) + Row(finish, i);
        i := i + 1;
      }
      wobjs := wobjs + [SunObject];
      wobjs := wobjs + [FloorObject];
    }

    /**
     * The character callback: w/s move, a/d strafe, z zooms in, Z zooms out
     * and, lacking a break, also flips its toggle like every other key.
     */
    method CharCallback(key: nat, trig: Trig)
      requires camera != null && keyToggles.Length == 256 && key < 256
      modifies camera, keyToggles
      ensures keyToggles[..] == if NavigationKey(key) then old(keyToggles[..]) else Flip(old(keyToggles[..]), key)
      ensures key == KeyW ==> camera.worldPos == Add(old(camera.worldPos), Mul(0.1, Forward(trig, camera.yaw)))
      ensures key == KeyS ==> camera.worldPos == Add(old(camera.worldPos), Mul(-0.1, Forward(trig, camera.yaw)))
      ensures key == KeyA ==> camera.worldPos == Add(old(camera.worldPos), Mul(-0.1, Side(trig, camera.yaw)))
      ensures key == KeyD ==> camera.worldPos == Add(old(camera.worldPos), Mul(0.1, Side(trig, camera.yaw)))
      ensures key == KeyLowerZ ==> camera.fovy == ZoomedFovy(old(camera.fovy), -1.0)
      ensures key == KeyUpperZ ==> camera.fovy == ZoomedFovy(old(camera.fovy), 1.0)
      ensures !(key == KeyW || key == KeyS || key == KeyA || key == KeyD) ==> camera.worldPos == old(camera.worldPos)
      ensures !(key == KeyLowerZ || key == KeyUpperZ) ==> camera.fovy == old(camera.fovy)
      ensures camera.worldPos.y == old(camera.worldPos.y)
      ensures camera.yaw == old(camera.yaw) && camera.pitch == old(camera.pitch)
      ensures camera.mousePrev == old(camera.mousePrev) && camera.state == old(camera.state)
      ensures camera.aspect == old(camera.aspect) && camera.znear == old(camera.znear) && camera.zfar == old(camera.zfar)
      ensures old(camera.Valid()) ==> camera.Valid()
    {
      if key == KeyW {
        camera.MoveDir(0.1, trig);
      } else if key == KeyS {
        camera.MoveDir(-0.1, trig);
      } else if key == KeyA {
        camera.MoveSide(-0.1, trig);
      } else if key == KeyD {
        camera.MoveSide(0.1, trig);
      } else if key == KeyLowerZ {
        camera.Zoom(-1.0);
      } else {
        if key == KeyUpperZ {
          camera.Zoom(1.0);
          // no break: control continues into the default branch
        }
        keyToggles[key] := !keyToggles[key];
      }
    }

    /** One push ... pop block of render: object i is drawn and MV is left as it was. */
    method DrawObject(P: MatrixStack, MV: MatrixStack, i: nat, animated: bool, pulse: real, lowestY: LowestY)
      returns (d: Draw)
      requires P != MV && i < |wobjs| && |P.stack| > 0 && |MV.stack| > 0
      modifies MV
      ensures MV.stack == old(MV.stack) && MV.Depth() == old(MV.Depth())
      ensures d == Draw(i, P.Top(), if animated then Pulsed(old(MV.Top()), wobjs[i], pulse, lowestY)
                                   else Placed(old(MV.Top()), wobjs[i]))
    {
      ghost var base := MV.Top();
      MV.PushMatrix();
      MV.Translate(wobjs[i].translate);
      MV.Scale(wobjs[i].scale);
      assert MV.Top() == Placed(base, wobjs[i]);
      if animated {
        MV.Translate(Lift(wobjs[i], pulse, lowestY));
        MV.Scale(Vec3(pulse, pulse, pulse));
      }
      d := Draw(i, P.Top(), MV.Top());
      MV.PopMatrix();
    }

    /**
     * One frame's transform composition on two fresh stacks: the floor (last
     * object), then the sun marker (second to last), then every other object
     * with the pulse applied. Returns the draws in order and what is left on
     * the P and MV stacks at the end.
     */
    method Render(trig: Trig, pulse: real, lowestY: LowestY)
      returns (draws: seq<Draw>, pFinal: seq<Matrix>, mvFinal: seq<Matrix>)
      requires camera != null && |wobjs| >= 2
      ensures pFinal == [Identity] && mvFinal == [Identity]
      ensures |pFinal| == 1 && |mvFinal| == 1
      ensures |draws| == |wobjs|
      ensures draws[0] == Draw(|wobjs| - 1, FrameProjection(), Placed(FrameView(trig), wobjs[|wobjs| - 1]))
      ensures draws[1] == Draw(|wobjs| - 2, FrameProjection(), Placed(FrameView(trig), wobjs[|wobjs| - 2]))
      ensures forall k :: 2 <= k < |draws| ==>
                draws[k] == Draw(k - 2, FrameProjection(), Pulsed(FrameView(trig), wobjs[k - 2], pulse, lowestY))
    {
      var P := new MatrixStack();
      var MV := new MatrixStack();
      P.PushMatrix();
      camera.ApplyProjectionMatrix(P);
      MV.PushMatrix();
      camera.ApplyViewMatrix(MV, trig);

      var ground := DrawObject(P, MV, |wobjs| - 1, false, pulse, lowestY);
      var sunMarker := DrawObject(P, MV, |wobjs| - 2, false, pulse, lowestY);
      draws := [ground, sunMarker];

      var i := 0;
      while i < |wobjs| - 2
        invariant 0 <= i <= |wobjs| - 2
        invariant P.stack == [Identity, FrameProjection()]
        invariant MV.stack == [Identity, FrameView(trig)]
        invariant |draws| == i + 2
        invariant draws[0] == ground && draws[1] == sunMarker
        invariant forall k :: 2 <= k < |draws| ==>
                    draws[k] == Draw(k - 2, FrameProjection(), Pulsed(FrameView(trig), wobjs[k - 2], pulse, lowestY))
      {
        var d := DrawObject(P, MV, i, true, pulse, lowestY);
        draws := draws + [d];
        i := i + 1;
      }

      MV.PopMatrix();
      P.PopMatrix();
      pFinal, mvFinal := P.stack, MV.stack;
    }
  }

  /** Start-up as main performs it: the globals, then init. */
  method Launch(finish: nat -> Finish) returns (app: App)
    ensures fresh(app) && app.camera != null && fresh(app.camera) && fresh(app.keyToggles)
    ensures app.keyToggles.Length == 256 && forall k :: 0 <= k < 256 ==> !app.keyToggles[k]
    ensures app.sun == Sun && app.camera.Valid()
    ensures app.camera.aspect == 1.0 && app.camera.fovy == Radians(45.0)
    ensures app.camera.znear == 0.1 && app.camera.zfar == 1000.0
    ensures app.camera.worldPos == Vec3(1.0, 2.0, 1.0) && app.camera.yaw == 0.0 && app.camera.pitch == 0.0
    ensures app.wobjs == SceneObjects(finish) && |app.wobjs| == 102
    ensures app.wobjs[|app.wobjs| - 1] == FloorObject && app.wobjs[|app.wobjs| - 2] == SunObject
  {
    app := new App();
    app.Init(finish);
    SceneLayout(finish);
  }
}
