# robb renderer core in Dafny

A model of the state and ordering rules that sit around the render loop of
robb, a small Go scaffold over OpenGL and GLFW. It covers these parts:

- the first-person camera (`FpsCamera`): construction defaults, keyboard movement
  along front/right/world-up, mouse look with yaw accumulation and pitch clamped
  to ±89°, recomputing the front/right/up basis, and the view and projection matrices;
- the `Transform` of an object and its model matrix Translate × (RotateY × Scale);
- the `Scene`: an append-only, ordered list of drawables, and a draw pass that
  asks the camera for its matrices once and then draws every object in list order;
- the `GameObject` draw bracket: set the shared shader's `model` uniform, draw the
  mesh, then reset `model` to the identity;
- the pure state logic of the `GameWindow` callbacks and frame loop: recorded key
  actions, key bindings, per-frame handler dispatch, the first-sample cursor-delta
  tracker, and the frame clock that sets the camera's `deltaTime`.

All scalars are Dafny `real`. Vectors are `Vec3`/`Vec4` values. A 4×4 matrix is a
sequence of four rows of four reals (`m[row][col]`). mgl32 stores matrices by
column, but the row layout gives the same mathematical matrix and product.
The library routines whose internals are not modelled are `math.Cos`, `math.Sin`,
`Vec3.Normalize`, `mgl32.LookAtV` and `mgl32.Perspective`. They are function values
in a `MathLib` record. The camera holds one as a constant, and the transform's
matrix takes one as an argument. A property that needs a value of one of them
(cos 0 = 1, sin 0 = 0, normalising a unit axis leaves it alone) states that as a
precondition. `DegToRad` is written out with a fixed real value of pi.
Cross products, sums and matrix products are computed exactly.

Modules, one per source file:
- `Mgl` (mgl.dfy): vectors and matrices, plus the constructors the core calls.
- `Transforms` (transform.dfy)
- `Cameras` (fps_camera.dfy), which also holds the movement enum of interfaces.go.
- `Scenes` (scene.dfy)
- `GameObjects` (game_object.dfy), with the shader's matrix uniforms and `Mesh.Draw`
  reduced to one recorded draw call.
- `GameWindows` (game_window.dfy)

Dispatch and draw calls are written to ghost traces:
- `Scene.trace` records the view query, the projection query and one `Drawn` event per object.
- `Shader.submitted` records each draw call with the uniforms it saw.
- `GameWindow.log` records the handlers that ran, the `deltaTime` handed to the camera and the scene draw.

Behaviours of the code the model keeps:
- A vertical look delta is scaled by 0.1 and subtracted from the pitch. From pitch 0,
  a vertical delta of 1000 ends at -89 (`Cameras.LookScenario`).
- The pitch is clamped to exactly ±89, both bounds included.
- `ProjectionMatrix` ignores the camera's stored fov, aspect, near and far. It
  always uses 45°, near 0.1 and far 100. Its aspect is 1, because the untyped
  Go constant `4/3` is an integer division.
- `Start` writes `deltaTime` through `Scene.Camera`, whose declared type is the
  `Camera` interface, and that interface has no such field. The model takes the
  scene's camera to be an `FpsCamera`.

## Model

| member | source | states |
|---|---|---|
| `Transforms.NewTransform` | transform.go:13-17 | the new transform is at the origin with scale 1 and angle 0 |
| `Transforms.ModelMatrixClosedForm` | transform.go:19-26 | multiplied out, Translate(X,Y,Z) × (RotY(Angle) × Scale(S)) has rows (cS,0,sS,X), (0,S,0,Y), (-sS,0,cS,Z), (0,0,0,1), where c and s are the cosine and sine of the angle in radians |
| `Transforms.TranslationColumn` | transform.go:20-23 | the fourth column of the model matrix is (X, Y, Z, 1) for every angle and scale |
| `Transforms.YAxisColumn` | transform.go:21-23 | the second column is (0, Scale, 0, 0): rotation about Y only scales the Y axis |
| `Transforms.DefaultIsIdentity` | transform.go:13-23 | given cos 0 = 1 and sin 0 = 0, the default transform's matrix is the identity |
| `Transforms.UnrotatedPointScales` | transform.go:20-23 | with angle 0 and zero position, the point (1,0,0,1) maps to (Scale,0,0,1) |
| `Transforms.CompositionOrderMatters` | transform.go:23 | the order is observable: for position (1,0,0) and a quarter turn, the model matrix keeps the translation at (1,0,0), while rotating after translating would put it at (0,0,-1) |
| `Cameras.Opposite` | interfaces.go:18-25 | each of the six named movements has a distinct opposite among them |
| `Cameras.OppositeIsInvolution` | interfaces.go:18-25 | the pairing is symmetric: Forward/Backward, Left/Right and Up/Down are each other's opposites |
| `Cameras.ClampPitch` | fps_camera.go:89-95 | the result lies in [-89, 89]; it equals the input when the input is already in range, and otherwise the nearer bound |
| `Cameras.LookPitch` | fps_camera.go:84-95 | the pitch after one look update always lies in [-89, 89] |
| `Cameras.LookScenario` | fps_camera.go:82-95 | from yaw -90 and pitch 0: a delta of (100, 0) gives yaw -80 with the pitch unchanged, and a delta of (0, 1000) gives pitch -89 |
| `Cameras.PitchAfterInRange` | fps_camera.go:87-95 | after any non-empty sequence of look updates the pitch lies in [-89, 89], whatever the deltas add up to |
| `Cameras.YawAfterAccumulates` | fps_camera.go:83-86 | after a sequence of look updates, yaw = initial yaw + 0.1 × (sum of the x deltas), with no clamping or wrap-around |
| `Cameras.MovedDisplacement` | fps_camera.go:54-80 | each named movement shifts the position by velocity along front (Forward/Backward), right (Left/Right) or world up (Up/Down), with sign + for Forward, Right, Up and - otherwise; any other movement value leaves the position unchanged |
| `Cameras.MoveThenOppositeRestores` | fps_camera.go:55-79 | a movement followed by its opposite, with the same velocity and basis, restores the position exactly |
| `Cameras.DefaultBasis` | fps_camera.go:100-109 | given the trig values at -90° and 0°, and that normalising a unit axis leaves it unchanged, the default orientation faces (0,0,-1), has right = front × worldUp = (1,0,0) and up = right × front = (0,1,0) |
| `Cameras.FpsCamera.constructor` | fps_camera.go:29-44 | position (0,0,3), world up (0,1,0), yaw -90, pitch 0, near 0.1, far 100, fov and aspect from the arguments, deltaTime 0, and the basis derived from yaw, pitch and world up (the camera invariant holds) |
| `Cameras.FpsCamera.ProjectionMatrix` | fps_camera.go:50-52 | the projection is Perspective(45° in radians, 1, 0.1, 100) |
| `Cameras.ViewFollowsPose` | fps_camera.go:46-48 | the view depends only on the position, front and up: two cameras that agree on those see the same view, whatever their yaw, pitch, fov or clip planes |
| `Cameras.ProjectionIgnoresState` | fps_camera.go:50-52 | two cameras with the same library routines return the same projection whatever their fields hold |
| `Cameras.FpsCamera.ProcessKeyboard` | fps_camera.go:54-80 | only the position changes, to the position moved one step of the given movement at velocity 2.5 × deltaTime along the current basis |
| `Cameras.FpsCamera.ProcessMouseMovement` | fps_camera.go:82-98 | yaw becomes old yaw + 0.1·xOffset; pitch becomes the clamp of old pitch - 0.1·yOffset; front, right and up are recomputed from the new yaw and pitch; the camera invariant (pitch in range, basis current) holds afterwards |
| `Cameras.FpsCamera.UpdateVectors` | fps_camera.go:100-109 | front = normalize(direction(yaw, pitch)), right = normalize(front × worldUp), up = normalize(right × front), in that order and operand order |
| `Scenes.DrawEventsLength` | scene.go:18-20 | a draw pass records exactly one object draw per list entry |
| `Scenes.DrawEventsAt` | scene.go:18-20 | the i-th object draw of a pass is the i-th list entry, given the pass's one view and projection |
| `Scenes.DrawEventsAppend` | scene.go:18-25 | drawing a list made of a then b draws all of a first, then all of b |
| `Scenes.InsertionOrderScenario` | scene.go:18-25 | after adding a then b to an empty list, a pass draws exactly a, then b |
| `Scenes.DrawAfterAddingTwo` | scene.go:8-25 | a new scene given a and then b in one AddObject call holds [a, b], and its draw records the view query, the projection query, then draws of a and of b, and nothing else |
| `Scenes.Scene.constructor` | scene.go:8-12 | the scene holds the given camera and no objects |
| `Scenes.Scene.AddObject` | scene.go:23-25 | the arguments are appended in order after the old list, whose prefix is unchanged; duplicates are kept and no arguments change nothing |
| `Scenes.Scene.Draw` | scene.go:14-21 | the view and then the projection are each queried once, then every object is drawn once, in list order, with that same pair; only the trace changes |
| `GameObjects.Shader.SetMat4` | shader.go:140-143 | the named uniform takes the value and the others are unchanged |
| `GameObjects.DrawMesh` | mesh.go:47-62 | the view and projection uniforms are set, then exactly one draw call is recorded with the uniforms at that moment |
| `GameObjects.UniformsAtDrawSeeArguments` | game_object.go:19-23 | inside the bracket the draw call sees model = the transform's matrix, plus the view and projection passed in, and every other uniform as before |
| `GameObjects.GameObject.constructor` | game_object.go:10-17 | a new game object has the default transform (zero position, scale 1, angle 0) |
| `GameObjects.GameObject.Draw` | game_object.go:19-23 | exactly one draw call is recorded; it sees model = GetTransformationMatrix of the transform and the given view and projection; afterwards model is the identity; the transform is unchanged |
| `GameWindows.NewBindingWaitsForPress` | game_window.go:131-134 | after binding a key, its state is Release and it is not due, so it does not fire until pressed; other keys are unaffected |
| `GameWindows.KeyEventDecidesDue` | game_window.go:80-82 | after a key event, that key is due exactly when the action is Press or Repeat and the key is bound; recording it changes nothing for other keys |
| `GameWindows.DueInOrderMembers` | game_window.go:110-116 | the handlers a pass runs are exactly those of keys whose state is Press or Repeat and that have a binding |
| `GameWindows.DueInOrderNoDuplicates` | game_window.go:110-116 | no handler runs twice in one pass |
| `GameWindows.TrackCursor` | game_window.go:87-98 | the first sample yields offset (0,0) whatever lastX/lastY held; later samples yield new - previous; either way the new position is remembered and the tracker is no longer fresh |
| `GameWindows.OffsetsTelescope` | game_window.go:87-101 | over any run of samples the offsets add up to last sample - starting point (the first sample if fresh); no motion is lost or counted twice |
| `GameWindows.DeltasTelescope` | game_window.go:118-122 | over any run of frames the deltaTimes add up to last clock reading - starting lastFrame |
| `GameWindows.GameWindow.constructor` | game_window.go:58-64 | a new window has the given size, no scene, no bindings and no recorded key states |
| `GameWindows.GameWindow.AddKeybinding` | game_window.go:131-134 | stores (or replaces) the handler, sets the key's state to Release, and leaves the key not due |
| `GameWindows.GameWindow.OnKey` | game_window.go:80-82 | the key's recorded action is overwritten with the latest one, bound or not |
| `GameWindows.GameWindow.Start` | game_window.go:84-103 | the cursor tracker starts at the window centre and fresh; deltaTime and lastFrame start at 0 |
| `GameWindows.GameWindow.OnCursorPos` | game_window.go:87-101 | the offsets are those of `TrackCursor`, and the camera gets them as one look update: yaw and pitch become `LookYaw`/`LookPitch` of the offsets, the basis is recomputed and the camera invariant holds; its position, deltaTime, world up, fov, aspect, near and far are unchanged |
| `GameWindows.GameWindow.DueHandlers` | game_window.go:110-116 | for any visiting order of the key states, the keys whose handlers run are the due keys in that order, each exactly once |
| `GameWindows.GameWindow.Frame` | game_window.go:106-124 | the due handlers run first; then, only when there is a scene: deltaTime = now - lastFrame, lastFrame = now, the camera's deltaTime is set, and the scene is drawn; without a scene none of these happen. Of the camera, the frame's own steps change only deltaTime: position, yaw, pitch, basis, world up, fov, aspect, near and far stay as they were |

## Left out

- GLFW and OpenGL plumbing is not modelled because it is foreign calls. This covers
  `glfw.Init`, window hints, context creation, `gl.Init`, the depth-test and cursor
  modes, the viewport and debug callbacks, clearing, `SwapBuffers`, `PollEvents`,
  `glfw.Terminate`, `Close`, `runtime.LockOSThread` and the error returns of `NewGameWindow`.
- The window's `while !ShouldClose()` repetition is not modelled: it depends on the close signal and on the events `PollEvents` delivers.
  `GameWindow.Frame` models one pass of it. `OnKey` and `OnCursorPos` model the callbacks those events trigger.
- `glfw.GetTime()` is a clock, so the frame takes its reading as the argument `currentTime`.
- The order of a Go `map` range is unspecified, so the key-state visiting order is an argument.
  It may be any arrangement of the recorded keys. The result is stated for all of them.
- Handler bodies are arbitrary closures. The model records which handler runs, not what it does.
  Because handlers run before the frame's `deltaTime` is updated, a handler that moves the camera uses the previous frame's `deltaTime`. The order of `Frame`'s log shows this.
- `OnCursorPos` dereferences the scene without a nil check. A nil scene crashes the program, so the model requires a scene.
- `Scene.Camera` is an interface in the source. The model uses `FpsCamera`, the only camera there is.
  Dafny's non-null type rules out the nil camera, which the source leaves to the caller.
- Drawables are opaque identities (`Drawable(id)`).
  `Scene.Draw` records which object is drawn with which matrices. It does not run `GameObject.Draw`, which is modelled separately.
- Shader compilation, linking, the lazily created shared shader singletons and `Use` are GL calls. A shader is only its matrix uniforms and a record of its draw calls.
- `Mesh.Draw` also sets the `color` or `ourTexture` uniform and binds a texture. Those are not matrix uniforms and are not modelled.
- Mesh buffer setup (`setup`), vertex and index data, and `DrawElements` are not modelled: they are GPU buffer management.
- `LookAtV`, `Perspective`, `Normalize`, `Cos` and `Sin` are not interpreted. So the orthonormality of front/right/up cannot be proved: the model only proves that the basis is this function of yaw, pitch and world up.
- `Cameras.FpsCamera.ViewMatrix` has no contract of its own: it is the look-at of the position, position + front and up. `Cameras.ViewFollowsPose` states what it depends on, and the scene's draw contract uses it.
- `Transforms.GetTransformationMatrix` has no contract of its own. `Transforms.ModelMatrixClosedForm` and the column lemmas state what it computes.
- `GameWindows.GameWindow.Frame`: the handlers it runs are recorded, not executed. Its clauses that the camera's position, yaw, pitch and basis are unchanged cover only the frame's own steps. A handler bound to a movement key calls `ProcessKeyboard` and moves the camera within the frame, and the model does not capture what handlers do.
- `Cameras.FpsCamera.ProcessKeyboard`: all arithmetic is over reals. Exact round trips such as Forward then Backward do not hold bit for bit in float32.
- `GameWindows.GameWindow.OnCursorPos`: the float64 to float32 casts of the offsets are not modelled, and neither is the float32 cast of the clock reading in `Frame`.
