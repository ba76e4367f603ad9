/** The state logic of the window's input callbacks and frame loop: which
    actions each key last reported, which keys have handlers, the cursor-delta
    tracker, and the per-frame clock that feeds the camera. */
module GameWindows {
  import opened Mgl
  import opened Cameras
  import opened Scenes

  /** A keyboard key code. */
  type Key = int

  predicate NoDuplicates(keys: seq<Key>)
  {
    forall i, j :: 0 <= i < j < |keys| ==> keys[i] != keys[j]
  }

  /** The key actions the windowing library reports. */
  datatype Action = Release | Press | Repeat

  /** A bound key handler, known only by its identity. */
  datatype Handler = Handler(id: nat)

  predicate IsDown(a: Action) { a == Press || a == Repeat }

  /** A key whose handler a frame runs: last reported as pressed or repeating,
      and bound. */
  predicate Due(keyStates: map<Key, Action>, keybindings: map<Key, Handler>, k: Key)
  {
    k in keyStates && IsDown(keyStates[k]) && k in keybindings
  }

  function DueKeys(keyStates: map<Key, Action>, keybindings: map<Key, Handler>): set<Key>
  {
    set k | k in keyStates && Due(keyStates, keybindings, k)
  }

  /** The due keys of `order`, in the order they appear there. */
  function DueInOrder(order: seq<Key>, keyStates: map<Key, Action>, keybindings: map<Key, Handler>): seq<Key>
    decreases |order|
  {
    if order == [] then []
    else
      var last := order[|order| - 1];
      DueInOrder(order[..|order| - 1], keyStates, keybindings)
      + (if Due(keyStates, keybindings, last) then [last] else [])
  }

  /** `DueInOrder` keeps exactly the due keys of `order`. */
  lemma {:induction false} DueInOrderMembers(order: seq<Key>, keyStates: map<Key, Action>, keybindings: map<Key, Handler>)
    ensures forall k :: k in DueInOrder(order, keyStates, keybindings) <==> k in order && Due(keyStates, keybindings, k)
    decreases |order|
  {
    if order != [] {
      var init := order[..|order| - 1];
      DueInOrderMembers(init, keyStates, keybindings);
      assert order == init + [order[|order| - 1]];
    }
  }

  /** `DueInOrder` of an order without repeats has no repeats. */
  lemma {:induction false} DueInOrderNoDuplicates(order: seq<Key>, keyStates: map<Key, Action>, keybindings: map<Key, Handler>)
    requires NoDuplicates(order)
    ensures NoDuplicates(DueInOrder(order, keyStates, keybindings))
    decreases |order|
  {
    if order != [] {
      var init := order[..|order| - 1];
      var last := order[|order| - 1];
      assert NoDuplicates(init);
      DueInOrderNoDuplicates(init, keyStates, keybindings);
      DueInOrderMembers(init, keyStates, keybindings);
      assert last !in init;
    }
  }

  /** A newly bound key is not due until it is next pressed; binding it
      changes nothing for any other key. */
  lemma NewBindingWaitsForPress(keyStates: map<Key, Action>, keybindings: map<Key, Handler>, key: Key, handler: Handler)
    ensures key !in DueKeys(keyStates[key := Release], keybindings[key := handler])
    ensures forall k :: k != key ==>
      (k in DueKeys(keyStates[key := Release], keybindings[key := handler]) <==> k in DueKeys(keyStates, keybindings))
  {
  }

  /** After a key event, that key is due exactly when the action is a press or
      a repeat and the key is bound; no other key is affected. */
  lemma KeyEventDecidesDue(keyStates: map<Key, Action>, keybindings: map<Key, Handler>, key: Key, action: Action)
    ensures key in DueKeys(keyStates[key := action], keybindings) <==> IsDown(action) && key in keybindings
    ensures forall k :: k != key ==>
      (k in DueKeys(keyStates[key := action], keybindings) <==> k in DueKeys(keyStates, keybindings))
  {
  }

  datatype Point = Point(x: real, y: real)

  /** The state the cursor callback keeps between samples. */
  datatype CursorTracker = CursorTracker(lastX: real, lastY: real, firstMouse: bool)

  /** One cursor sample: the offset from the previous sample (none on the first)
      and the tracker that remembers this sample. */
  function TrackCursor(t: CursorTracker, p: Point): (r: (CursorTracker, Point))
    ensures r.0 == CursorTracker(p.x, p.y, false)
    ensures t.firstMouse ==> r.1 == Point(0.0, 0.0)
    ensures !t.firstMouse ==> r.1 == Point(p.x - t.lastX, p.y - t.lastY)
  {
    var previous := if t.firstMouse then p else Point(t.lastX, t.lastY);
    (CursorTracker(p.x, p.y, false), Point(p.x - previous.x, p.y - previous.y))
  }

  /** The offsets a sequence of cursor samples yields, in order. */
  function Offsets(t: CursorTracker, samples: seq<Point>): seq<Point>
    decreases |samples|
  {
    if samples == [] then []
    else
      var step := TrackCursor(t, samples[0]);
      [step.1] + Offsets(step.0, samples[1..])
  }

  function SumPoints(s: seq<Point>): Point
    decreases |s|
  {
    if s == [] then Point(0.0, 0.0)
    else var rest := SumPoints(s[1..]); Point(s[0].x + rest.x, s[0].y + rest.y)
  }

  /** The offsets add up to the cursor's displacement from where the tracker
      started: the first sample when the tracker is fresh, the remembered
      position otherwise. No motion is lost or counted twice. */
  lemma {:induction false} OffsetsTelescope(t: CursorTracker, samples: seq<Point>)
    requires samples != []
    ensures var start := if t.firstMouse then samples[0] else Point(t.lastX, t.lastY);
            var last := samples[|samples| - 1];
            SumPoints(Offsets(t, samples)) == Point(last.x - start.x, last.y - start.y)
    decreases |samples|
  {
    var step := TrackCursor(t, samples[0]);
    if |samples| > 1 {
      OffsetsTelescope(step.0, samples[1..]);
    }
  }

  /** The deltaTime of each frame, for the clock readings of successive frames. */
  function Deltas(lastFrame: real, times: seq<real>): seq<real>
    decreases |times|
  {
    if times == [] then [] else [times[0] - lastFrame] + Deltas(times[0], times[1..])
  }

  /** The frame deltas add up to the time elapsed since the clock's starting reading. */
  lemma {:induction false} DeltasTelescope(lastFrame: real, times: seq<real>)
    requires times != []
    ensures Sum(Deltas(lastFrame, times)) == times[|times| - 1] - lastFrame
    decreases |times|
  {
    if |times| > 1 {
      DeltasTelescope(times[0], times[1..]);
    }
  }

  /** What a frame does, in order. */
  datatype WindowEvent =
    | HandlerRan(key: Key, handler: Handler)
    | DeltaTimeSet(deltaTime: real)
    | SceneDrawn

  function HandlerEvents(keys: seq<Key>, keybindings: map<Key, Handler>): seq<WindowEvent>
    requires forall i :: 0 <= i < |keys| ==> keys[i] in keybindings
    decreases |keys|
  {
    if keys == [] then []
    else [HandlerRan(keys[0], keybindings[keys[0]])] + HandlerEvents(keys[1..], keybindings)
  }


  class GameWindow {
    var scene: Scene?
    var width: int
    var height: int
    var keybindings: map<Key, Handler>
    var keyStates: map<Key, Action>
    // The state the callbacks registered by Start share.
    var lastX: real
    var lastY: real
    var firstMouse: bool
    var deltaTime: real
    var lastFrame: real
    /** What the frames have done, oldest first. */
    ghost var log: seq<WindowEvent>

    /** The state NewGameWindow leaves once the window exists. */
    constructor (width: int, height: int)
      ensures this.width == width && this.height == height && scene == null
      ensures keybindings == map[] && keyStates == map[] && log == []
    {
      this.width := width;
      this.height := height;
      scene := null;
      keybindings := map[];
      keyStates := map[];
      log := [];
    }

    method AddKeybinding(key: Key, handler: Handler)
      modifies this`keybindings, this`keyStates
      ensures keybindings == old(keybindings)[key := handler]
      ensures keyStates == old(keyStates)[key := Release]
      ensures key !in DueKeys(keyStates, keybindings)
    {
      keybindings := keybindings[key := handler];
      keyStates := keyStates[key := Release];
      NewBindingWaitsForPress(old(keyStates), old(keybindings), key, handler);
    }

    /** The key callback: the latest action for the key replaces the one recorded,
        bound or not. */
    method OnKey(key: Key, action: Action)
      modifies this`keyStates
      ensures keyStates == old(keyStates)[key := action]
    {
      keyStates := keyStates[key := action];
    }

    /** The state Start sets up before its loop: the cursor anchored at the
        window's centre and waiting for its first sample, the clock at zero. */
    method Start()
      modifies this`lastX, this`lastY, this`firstMouse, this`deltaTime, this`lastFrame
      ensures lastX == width as real / 2.0 && lastY == height as real / 2.0 && firstMouse
      ensures deltaTime == 0.0 && lastFrame == 0.0
    {
      lastX, lastY := width as real / 2.0, height as real / 2.0;
      firstMouse := true;
      deltaTime, lastFrame := 0.0, 0.0;
    }

    function Cursor(): CursorTracker
      reads this
    {
      CursorTracker(lastX, lastY, firstMouse)
    }

    /** The cursor callback: the offset since the previous sample goes to the
        scene's camera as a look update. */
    method OnCursorPos(xpos: real, ypos: real) returns (xOffset: real, yOffset: real)
      requires scene != null
      modifies this`lastX, this`lastY, this`firstMouse
      modifies scene.camera`yaw, scene.camera`pitch, scene.camera`front, scene.camera`right, scene.camera`up
      ensures (Cursor(), Point(xOffset, yOffset)) == TrackCursor(old(Cursor()), Point(xpos, ypos))
      ensures scene.camera.yaw == LookYaw(old(scene.camera.yaw), xOffset)
      ensures scene.camera.pitch == LookPitch(old(scene.camera.pitch), yOffset)
      ensures scene.camera.Valid() && scene.camera.position == old(scene.camera.position)
      ensures scene.camera.deltaTime == old(scene.camera.deltaTime) && scene.camera.worldUp == old(scene.camera.worldUp)
      ensures scene.camera.fov == old(scene.camera.fov) && scene.camera.aspect == old(scene.camera.aspect)
      ensures scene.camera.near == old(scene.camera.near) && scene.camera.far == old(scene.camera.far)
    {
      if firstMouse {
        lastX := xpos;
        lastY := ypos;
        firstMouse := false;
      }
      xOffset := xpos - lastX;
      yOffset := ypos - lastY;
      lastX := xpos;
      lastY := ypos;
      scene.camera.ProcessMouseMovement(xOffset, yOffset);
    }

    /** The keys whose handlers one pass over the key states runs, in the order
        they run. The map is visited in an order the runtime chooses, given here
        as `order`: any arrangement of the recorded keys, each once. */
    method DueHandlers(order: seq<Key>) returns (fired: seq<Key>)
      requires NoDuplicates(order) && forall k :: k in order <==> k in keyStates
      ensures fired == DueInOrder(order, keyStates, keybindings)
      ensures forall k :: k in fired <==> k in DueKeys(keyStates, keybindings)
      ensures NoDuplicates(fired)
      ensures forall i :: 0 <= i < |fired| ==> fired[i] in keybindings
    {
      fired := [];
      for n := 0 to |order|
        invariant fired == DueInOrder(order[..n], keyStates, keybindings)
      {
        var key := order[n];
        assert order[..n + 1][..n] == order[..n];
        var action := keyStates[key];
        if action == Press || action == Repeat {
          if key in keybindings {
            fired := fired + [key];
          }
        }
      }
      assert order[..|order|] == order;
      DueInOrderMembers(order, keyStates, keybindings);
      DueInOrderNoDuplicates(order, keyStates, keybindings);
      forall i | 0 <= i < |fired| ensures fired[i] in keybindings {
        assert fired[i] in fired;
        assert Due(keyStates, keybindings, fired[i]);
      }
    }

    /** One pass of the loop in Start, at clock reading currentTime: the due
        handlers run; then, when there is a scene, the frame's deltaTime is
        taken, handed to the camera, and the scene is drawn. */
    method Frame(order: seq<Key>, currentTime: real) returns (fired: seq<Key>)
      requires NoDuplicates(order) && forall k :: k in order <==> k in keyStates
      modifies this`deltaTime, this`lastFrame, this`log
      modifies (if scene == null then {} else {scene})`trace
      modifies (if scene == null then {} else {scene.camera})`deltaTime
      ensures fired == DueInOrder(order, keyStates, keybindings)
      ensures forall k :: k in fired <==> k in DueKeys(keyStates, keybindings)
      ensures NoDuplicates(fired)
      ensures forall i :: 0 <= i < |fired| ==> fired[i] in keybindings
      ensures scene == null ==>
        deltaTime == old(deltaTime) && lastFrame == old(lastFrame) &&
        log == old(log) + HandlerEvents(fired, keybindings)
      ensures scene != null ==>
        deltaTime == currentTime - old(lastFrame) && lastFrame == currentTime &&
        scene.camera.deltaTime == deltaTime &&
        log == old(log) + HandlerEvents(fired, keybindings) + [DeltaTimeSet(deltaTime), SceneDrawn] &&
        scene.trace == old(scene.trace)
                       + [ViewQueried(scene.camera.ViewMatrix()), ProjectionQueried(scene.camera.ProjectionMatrix())]
                       + DrawEvents(scene.objects, scene.camera.ViewMatrix(), scene.camera.ProjectionMatrix())
      ensures scene != null ==>
        scene.objects == old(scene.objects) && scene.camera == old(scene.camera) &&
        scene.camera.position == old(scene.camera.position) &&
        scene.camera.yaw == old(scene.camera.yaw) && scene.camera.pitch == old(scene.camera.pitch) &&
        (old(scene.camera.Valid()) ==> scene.camera.Valid())
      ensures scene != null ==>
        scene.camera.front == old(scene.camera.front) && scene.camera.right == old(scene.camera.right) &&
        scene.camera.up == old(scene.camera.up) && scene.camera.worldUp == old(scene.camera.worldUp)
      ensures scene != null ==>
        scene.camera.fov == old(scene.camera.fov) && scene.camera.aspect == old(scene.camera.aspect) &&
        scene.camera.near == old(scene.camera.near) && scene.camera.far == old(scene.camera.far)
    {
      fired := DueHandlers(order);
      log := log + HandlerEvents(fired, keybindings);
      if scene != null {
        var currentFrame := currentTime;
        deltaTime := currentFrame - lastFrame;
        lastFrame := currentFrame;
        scene.camera.deltaTime := deltaTime;
        log := log + [DeltaTimeSet(deltaTime)];
        scene.Draw();
        log := log + [SceneDrawn];
      }
    }
  }
}
