/** A scene: one camera and an append-only, insertion-ordered list of drawables,
    drawn in one pass that asks the camera for its matrices once. */
module Scenes {
  import opened Mgl
  import opened Cameras

  /** A drawable object, known only by its identity; the same identity may
      appear in the list more than once. */
  datatype Drawable = Drawable(id: nat)

  /** What a draw pass does, in order. */
  datatype Event =
    | ViewQueried(view: Mat4)
    | ProjectionQueried(projection: Mat4)
    | Drawn(obj: Drawable, view: Mat4, projection: Mat4)

  /** One Drawn event per object of the list, in list order, all given the same matrices. */
  function DrawEvents(objects: seq<Drawable>, view: Mat4, projection: Mat4): seq<Event>
    decreases |objects|
  {
    if objects == [] then []
    else [Drawn(objects[0], view, projection)] + DrawEvents(objects[1..], view, projection)
  }

  lemma {:induction false} DrawEventsAt(objects: seq<Drawable>, view: Mat4, projection: Mat4, i: nat)
    requires i < |objects|
    ensures |DrawEvents(objects, view, projection)| == |objects|
    ensures DrawEvents(objects, view, projection)[i] == Drawn(objects[i], view, projection)
    decreases |objects|
  {
    if i == 0 {
      DrawEventsLength(objects[1..], view, projection);
    } else {
      DrawEventsAt(objects[1..], view, projection, i - 1);
    }
  }

  lemma {:induction false} DrawEventsLength(objects: seq<Drawable>, view: Mat4, projection: Mat4)
    ensures |DrawEvents(objects, view, projection)| == |objects|
    decreases |objects|
  {
    if objects != [] {
      DrawEventsLength(objects[1..], view, projection);
    }
  }

  /** Drawing a concatenated list draws the first part, then the second. */
  lemma {:induction false} DrawEventsAppend(a: seq<Drawable>, b: seq<Drawable>, view: Mat4, projection: Mat4)
    ensures DrawEvents(a + b, view, projection) == DrawEvents(a, view, projection) + DrawEvents(b, view, projection)
    decreases |a|
  {
    if a != [] {
      assert (a + b)[1..] == a[1..] + b;
      DrawEventsAppend(a[1..], b, view, projection);
    } else {
      assert a + b == b;
    }
  }

  /** Objects are drawn in insertion order: after adding a and then b to an empty
      scene, a's draw comes first and b's second, and nothing else is drawn. */
  lemma InsertionOrderScenario(a: Drawable, b: Drawable, view: Mat4, projection: Mat4)
    ensures DrawEvents([] + [a, b], view, projection) == [Drawn(a, view, projection), Drawn(b, view, projection)]
  {
    assert [] + [a, b] == [a, b];
    assert [a, b][1..] == [b];
    assert DrawEvents([b], view, projection) == [Drawn(b, view, projection)] + DrawEvents([], view, projection);
  }

  class Scene {
    var camera: FpsCamera
    var objects: seq<Drawable>
    /** The calls each draw pass has made, oldest first. */
    ghost var trace: seq<Event>

    /** NewScene */
    constructor (camera: FpsCamera)
      ensures this.camera == camera && objects == [] && trace == []
    {
      this.camera := camera;
      objects := [];
      trace := [];
    }

    /** AddObject: appends its arguments, in order, keeping duplicates. */
    method AddObject(obj: seq<Drawable>)
      modifies this`objects
      ensures objects == old(objects) + obj
      ensures |objects| == |old(objects)| + |obj| && objects[..|old(objects)|] == old(objects)
    {
      objects := objects + obj;
    }

    /** Draw: the view and projection are queried once, in that order, and
        every object is drawn with that pair, in list order. */
    method Draw()
      modifies this`trace
      ensures trace == old(trace)
                       + [ViewQueried(camera.ViewMatrix()), ProjectionQueried(camera.ProjectionMatrix())]
                       + DrawEvents(objects, camera.ViewMatrix(), camera.ProjectionMatrix())
    {
      var view := camera.ViewMatrix();
      trace := trace + [ViewQueried(view)];
      var projection := camera.ProjectionMatrix();
      trace := trace + [ProjectionQueried(projection)];
      ghost var start := trace;
      for i := 0 to |objects|
        invariant trace == start + DrawEvents(objects[..i], view, projection)
      {
        DrawEventsAppend(objects[..i], [objects[i]], view, projection);
        assert objects[..i + 1] == objects[..i] + [objects[i]];
        trace := trace + [Drawn(objects[i], view, projection)];
      }
      assert objects[..|objects|] == objects;
    }
  }

  /** Insertion order on a scene itself: a new scene given a and then b in one
      AddObject call draws exactly a, then b, after its two matrix queries. */
  method DrawAfterAddingTwo(camera: FpsCamera, a: Drawable, b: Drawable) returns (s: Scene)
    ensures s.camera == camera && s.objects == [a, b]
    ensures s.trace == [ViewQueried(camera.ViewMatrix()), ProjectionQueried(camera.ProjectionMatrix()),
                        Drawn(a, camera.ViewMatrix(), camera.ProjectionMatrix()),
                        Drawn(b, camera.ViewMatrix(), camera.ProjectionMatrix())]
  {
    s := new Scene(camera);
    s.AddObject([a, b]);
    s.Draw();
    InsertionOrderScenario(a, b, camera.ViewMatrix(), camera.ProjectionMatrix());
  }
}
