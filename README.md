# free-look-world: camera and viewer logic in Dafny

This project models the discrete logic of a small OpenGL scene viewer. A free-flying camera moves over a 10 × 10 grid of bunnies and teapots, which sit beside a sun marker and a floor. Two parts are modelled:

- **The camera** (`src/Camera.cpp`), a class whose input handlers update its fields in place:
  - a click picks an interaction mode from the modifier keys;
  - pointer motion turns yaw and pitch, and pitch is clamped to [-1, 1];
  - moveDir and moveSide move the position in the horizontal plane only;
  - zoom changes the field of view in degrees, clamped to [4, 114];
  - the two `const` members multiply the projection and view transforms onto a matrix stack.
- **The viewer's globals and handlers** (`src/main.cpp`):
  - the character callback, which flips entries of the 256-slot `keyToggles` array, including the fall-through on `'Z'`;
  - `init`, which builds the object list with a nested loop;
  - the push/pop discipline of `render` on its two matrix stacks;
  - the row-stride arithmetic of `saveImage`.

Floats are modelled as `real`, with no rounding. `M_PI` is a real constant with the same decimal value. `sin` and `cos` are not interpreted: calls pass them in as a `Trig` value. The source of MatrixStack is not part of this model. The stack is modelled on its documented contract:

- a new stack holds an identity base;
- a push duplicates the top;
- a pop removes the top and must not remove the base;
- `multMatrix(t)` replaces the top `T` with `T * t`.

Matrices are kept as symbolic terms (`Identity`, `Then(m, t)`). These terms record which transforms were composed, and in what order. They give the transforms no numeric meaning.

Files:

- `geometry.dfy` (module `Geometry`): vectors, degree/radian conversion, the clamp, and the clamped walk, which is what calling a clamping update repeatedly amounts to.
- `matrix_stack.dfy` (module `Transforms`): transform terms and the `MatrixStack` class.
- `camera.dfy` (module `Cameras`): the `Camera` class and the specification functions and lemmas for its updates.
- `scene.dfy` (module `Scene`): the `WorldObject` and `Light` records, and the object list that `init` builds.
- `viewer.dfy` (module `Viewer`): the `App` class holding the globals of `main.cpp`, with `CharCallback`, `Init` and `Render`, plus `SaveImageLayout`.

The comment at src/main.cpp:271 says the space bar turns the animation on and off. The code computes `scale_mult` before it zeroes `t` (src/main.cpp:267-273), so the toggle has no effect on the pulse. The model follows the code: `Render` takes the pulse factor as an input and ties it to no toggle.

## Model

| member | source | states |
|---|---|---|
| Cameras.Camera.constructor | src/Camera.cpp:8-22 | aspect 1, fovy = 45° in radians, znear 0.1, zfar 1000, world position (1,2,1), yaw = pitch = 0; mousePrev and state are left unconstrained because the constructor does not set them; the camera invariant holds |
| Cameras.Camera.MouseClicked | src/Camera.cpp:28-39 | mousePrev becomes (x, y); the mode is TRANSLATE iff shift, SCALE iff ctrl without shift, ROTATE iff neither; alt never matters; nothing else changes |
| Cameras.Camera.MouseMoved | src/Camera.cpp:57-66 | yaw grows by exactly 0.01·dx with no bound; pitch becomes clamp(-1, 1, pitch + 0.01·dy), so it lies in [-1, 1] whatever came before; mousePrev becomes (x, y) unconditionally; state, position and fovy are untouched |
| Cameras.Camera.MoveDir | src/Camera.cpp:69-73 | only the position changes, by change·(sin yaw, 0, cos yaw); its y component never changes |
| Cameras.Camera.MoveSide | src/Camera.cpp:75-80 | only the position changes, by change·(forward × up) = change·(-cos yaw, 0, sin yaw); its y component never changes |
| Cameras.Side | src/Camera.cpp:77-78 | the strafe direction is (-cos yaw, 0, sin yaw) and is perpendicular to both the forward direction and world up |
| Cameras.Camera.Zoom | src/Camera.cpp:82-91 | fovy becomes ZoomedFovy(fovy, change), and in degrees it lies in [4, 114] |
| Cameras.ZoomedFovy | src/Camera.cpp:82-91 | the result in degrees lies in [4, 114]; when the unclamped value is in range it moves by exactly change; at or beyond either bound it equals that bound |
| Cameras.ZoomedRepeatedlyWalks | src/Camera.cpp:82-91 | in degrees, a sequence of zooms is a clamped walk over the changes between 4 and 114 |
| Cameras.RepeatedZoomOutSaturates | src/Camera.cpp:85-86 | non-negative zoom steps that carry fovy, in degrees, to 114 or beyond (start plus the sum of the steps) leave fovy exactly at 114° (in radians), whatever the step sizes |
| Cameras.RepeatedZoomInSaturates | src/Camera.cpp:87-88 | non-positive zoom steps that carry fovy, in degrees, to 4 or below (start plus the sum of the steps) leave fovy exactly at 4° (in radians) |
| Cameras.PitchAfterMovesWalks | src/Camera.cpp:60-65 | a sequence of pointer moves walks the pitch, clamped to [-1, 1], over 0.01 times each vertical delta; those increments add up to 0.01 times the total delta |
| Cameras.PitchSaturatesUp | src/Camera.cpp:61-62 | vertical deltas that are all non-negative and push the unclamped pitch to 1 or beyond leave the pitch exactly 1 |
| Cameras.PitchSaturatesDown | src/Camera.cpp:63-64 | vertical deltas that are all non-positive and push the unclamped pitch to -1 or below leave the pitch exactly -1 |
| Cameras.Camera.FollowCursor | src/Camera.cpp:57-66 | a run of cursor callbacks through a path, in order: the pitch is PitchAfterMoves over the successive vertical deltas, each measured from the previously recorded position; yaw moves by 0.01 times the total horizontal travel; the last position is recorded |
| Cameras.CursorDeltas | src/Camera.cpp:58-59 | the vertical delta of each callback is its y minus the y the previous callback recorded, the first one measured from the starting position |
| Cameras.CursorDeltasTelescope | src/Camera.cpp:58-66 | the successive vertical deltas add up to the last y minus the starting y |
| Cameras.CursorDragSaturatesUp | src/Camera.cpp:60-62 | a drag with non-decreasing y whose total vertical travel carries the unclamped pitch to 1 or beyond leaves the pitch exactly 1 |
| Cameras.CursorDragSaturatesDown | src/Camera.cpp:60-64 | a drag with non-increasing y whose total vertical travel carries the unclamped pitch to -1 or below leaves the pitch exactly -1 |
| Cameras.Camera.ApplyProjectionMatrix | src/Camera.cpp:93-97 | replaces P's top T by T·perspective(fovy, aspect, znear, zfar), leaves the rest of P, and leaves every camera field unchanged (const) |
| Cameras.Camera.ApplyViewMatrix | src/Camera.cpp:99-106 | replaces MV's top T by T·lookAt(pos, pos + (sin yaw, sin pitch, cos yaw), up), leaves the rest of MV, and leaves every camera field unchanged (const) |
| Transforms.MatrixStack.constructor | src/main.cpp:276-277 | a new stack holds only the identity base; assumed from MatrixStack's documented behaviour, since its source is not part of this model |
| Transforms.MatrixStack.PushMatrix | src/main.cpp:280-283 | the top is duplicated and nothing below it changes; assumed, as above |
| Transforms.MatrixStack.PopMatrix | src/main.cpp:306 | the top is removed and the rest is kept; at least two entries are required, so the base is never popped; assumed, as above |
| Transforms.MatrixStack.MultMatrix | src/Camera.cpp:96 | the top T becomes T·t and every lower entry is kept; assumed, as above |
| Transforms.MatrixStack.Translate | src/main.cpp:292 | the top T becomes T·translate(offset) and every lower entry is kept; assumed, as above |
| Transforms.MatrixStack.Scale | src/main.cpp:293 | the top T becomes T·scale(factors) and every lower entry is kept; assumed, as above |
| Geometry.Clamp | src/Camera.cpp:61-65 | the clamp each handler writes out: the result lies in [lo, hi], equals the input when the input is in range, and equals the bound that was crossed otherwise |
| Geometry.DegreesRadians | src/Camera.cpp:83-90 | converting degrees to radians and back, or the other way, returns the value unchanged, so zoom's write-back is exact |
| Geometry.WalkRises | src/Camera.cpp:85-86 | repeated clamped updates with non-negative increments end at least at min(top, start + sum of increments) |
| Geometry.WalkFalls | src/Camera.cpp:87-88 | repeated clamped updates with non-positive increments end at most at max(bottom, start + sum of increments) |
| Scene.GridRowsCell | src/main.cpp:198-213 | the first n rows of the grid hold 10·n objects, and index 10·i + j holds the object for row i, column j |
| Scene.GridCell | src/main.cpp:198-213 | object 10·i + j of the list has translation (2i, 0, 2j) and scale (1,1,1); it uses the bunny iff i + j is even and the teapot iff i + j is odd |
| Scene.SceneLayout | src/main.cpp:215-238 | the list has 102 entries; size()-2 is the sun at (10,10,10) and size()-1 is the floor; every index below size()-2 is a unit-scale bunny or teapot, i.e. exactly the grid |
| Viewer.Flip | src/main.cpp:110 | flipping key k negates entry k only; the length and every other entry stay the same |
| Viewer.FlipTwice | src/main.cpp:110 | flipping the same toggle twice restores the whole array |
| Viewer.SaveImageLayout | src/main.cpp:125-128 | the stride is a multiple of 4, at least 3·width and less than 3·width + 4 (the least such multiple); the buffer size is stride·height |
| Viewer.App.constructor | src/main.cpp:36-47 | before init there is no camera and no object, the light is all zeros, and all 256 toggles are off |
| Viewer.App.Init | src/main.cpp:143-241 | sets the light to (10,10,10) with colour 0.8, creates a camera in its initial state, and appends the grid (row by row), the sun and the floor: the list becomes its old contents followed by the 102 scene objects |
| Viewer.App.CharCallback | src/main.cpp:89-112 | 'w'/'s' call moveDir(±0.1) and 'a'/'d' call moveSide(∓0.1); 'z' zooms by -1; 'Z' zooms by +1 and, lacking a break, also flips its toggle; 'w', 's', 'a', 'd' and 'z' leave the toggles alone; every other key flips exactly its own entry; key < 256 is required |
| Viewer.App.DrawObject | src/main.cpp:328-345 | one push … pop block: the draw sees MV's top times the object's translation and scale (and, for grid objects, the lift and pulse scale); MV is left exactly as before, at the same depth |
| Viewer.App.Render | src/main.cpp:275-350 | given a camera and at least two objects (size()-2 must not wrap around), draws the floor (last entry), then the sun (next to last), then each grid object in order, each on top of the same camera view; both stacks end as they started, holding only the identity base (depth 1) |
| Viewer.Launch | src/main.cpp:411 | after the globals and init: a new camera in its initial state (aspect 1, fovy 45°, znear 0.1, zfar 1000, position (1,2,1), yaw = pitch = 0, camera invariant holding), a new toggle array of 256 entries all off, the light is the sun, and the list holds exactly the 102 scene objects with the floor last and the sun next to last, so the handlers and render can be called |

## Left out

- OpenGL, GLEW and GLFW calls are foreign I/O and are not modelled. This covers window creation, uniforms, `glReadPixels`, PNG writing, viewport, cull and polygon modes, the error and escape-key callbacks, and the event loop in `main`.
- The mouse-button and cursor callbacks (src/main.cpp:64-87) are not modelled. They decode the GLFW modifier bits and forward to `mouseClicked`/`mouseMoved`, which are modelled.
- The numeric content of `glm::perspective`, `glm::lookAt`, the inverse-transpose normal matrix and the view-space sun position is not modelled. These are floating-point library calls; transforms appear only as symbolic terms.
- MatrixStack's multiplication, translation and scaling arithmetic is not modelled: its source is not part of this model. Only the stack contents as symbolic terms are kept.
- The sine pulse `scale_mult` (src/main.cpp:268) is float trigonometry on wall-clock time. It enters `Render` as the parameter `pulse`. Meshes' lowest vertex y enters as `LowestY`, since it comes from the mesh files.
- Render reads the toggles for 'c' and 't' and sets the camera's aspect from the framebuffer size (src/main.cpp:248-265). Neither is modelled. The toggles only select GL modes, and `setAspect` is defined in Camera.h, which is not part of this model. As a result, the perspective term of every draw in `Render` carries the aspect the camera held before the frame (1 after `Init`), not the frame's width/height ratio.
- `setInitDistance` (src/main.cpp:177) is not modelled: it is defined in Camera.h, which is not part of this model.
- The camera fields `rotations`, `translations`, `rfactor`, `tfactor` and `sfactor` (src/Camera.cpp:13-17) are not modelled. Only commented-out code reads them, and that dead code (src/Camera.cpp:43-56) is left out too.
- The random material coefficients of grid objects (src/main.cpp:204-206) are not modelled as random draws. They enter `Init` as the parameter `finish`, indexed by grid position. The `std::rand` draw order and its scaling are not modelled.
- Mesh loading and shader setup through `Shape` and `Program` are not modelled; those classes are not part of this model.
- Viewer.SaveImageLayout: 32-bit `GLsizei` overflow of `3·width` and `stride·height` is not modelled. The model's integers are unbounded, which agrees with the source whenever those values fit in a signed 32-bit int. Width and height must be non-negative, as glfwGetFramebufferSize reports them.
- Viewer.App.CharCallback: GLFW's character callback (registered at src/main.cpp:403) passes any Unicode code point, so keys of 256 or more do reach `char_callback`. For such a key the `default:` branch (src/main.cpp:110) indexes the 256-slot `keyToggles` array (src/main.cpp:47) out of bounds, which is undefined behaviour. The model leaves those keys out through its requires `key < 256`.
- Float rounding is not modelled, including the `(float)` cast of the initial field of view and the float/double mix in `mouseMoved`.
