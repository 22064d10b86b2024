/** A short timeline in the manner of the demo program: a one-second wait, a
    one-second circle reveal, the same wait played again and a disappear of the
    circle, stepped at one second per frame. */
module Timeline {
  import opened Objects
  import opened Animations
  import opened Lists
  import opened Scenes

  /** The three animations of the timeline; the circle reveal is slowed to one
      second. The engine's shared wait object is a zero-initialised static; here
      it is built with the plain object constructor, which draws one object id
      that the engine itself never draws. */
  method Cast() returns (wait: Animation, circleAnim: Animation, disappear: Animation)
    ensures fresh(wait) && fresh(wait.target) && fresh(circleAnim) && fresh(circleAnim.target) && fresh(disappear)
    ensures wait != circleAnim && wait != disappear && circleAnim != disappear
    ensures wait.target != circleAnim.target && disappear.target == circleAnim.target
    ensures wait.duration == 1.0 && wait.elapsed == 0.0
    ensures wait.update == DefaultUpdate && wait.interpolate == WaitInterpolate
    ensures wait.target.render == ObjectEmptyRender
    ensures circleAnim.duration == 1.0 && circleAnim.elapsed == 0.0 && circleAnim.target.shape.CircleShape?
    ensures circleAnim.update == DefaultUpdate && circleAnim.interpolate == CircleDefaultInterpolate
    ensures disappear.duration == 0.0 && disappear.elapsed == 0.0
    ensures disappear.update == DefaultUpdate && disappear.interpolate == DisappearDefaultInterpolate
  {
    var counter := new IdCounter();
    var waitObject := new RaObject(counter, Origin, ObjectEmptyRender);
    wait := new Animation.Wait(counter, waitObject, 1.0);
    var circle := new RaObject.DefaultCircle(counter, Vector2(800.0, 500.0), 200.0);
    circleAnim := new Animation.CircleReveal(counter, circle);
    circleAnim.duration := 1.0;
    disappear := new Animation.Disappear(counter, circle);
  }

  /** A fresh scene with the wait, the reveal, the wait again and the disappear queued. */
  method Stage(wait: Animation, circleAnim: Animation, disappear: Animation) returns (scene: Scene)
    ensures fresh(scene) && fresh(scene.objects) && fresh(scene.objects.buf)
    ensures fresh(scene.queue) && fresh(scene.queue.buf)
    ensures scene.Valid() && scene.current == null && scene.objects.Contents == []
    ensures scene.objects.capacity == DA_INIT_SIZE
    ensures scene.queue.Contents == [wait, circleAnim, wait, disappear]
  {
    scene := new Scene();
    scene.Play(wait);
    scene.Play(circleAnim);
    scene.Play(wait);
    scene.Play(disappear);
  }

  /** The cast as `Cast` and `Stage` leave it. */
  ghost predicate Ready(scene: Scene, wait: Animation, circleAnim: Animation, disappear: Animation)
    reads scene, scene.objects, scene.objects.buf, scene.queue, scene.queue.buf
    reads wait, wait.target, circleAnim, circleAnim.target, disappear
  {
    && wait != circleAnim && wait != disappear && circleAnim != disappear
    && wait.target != circleAnim.target && disappear.target == circleAnim.target
    && wait.duration == 1.0 && wait.update == DefaultUpdate && wait.interpolate == WaitInterpolate
    && wait.target.render == ObjectEmptyRender
    && circleAnim.duration == 1.0 && circleAnim.target.shape.CircleShape?
    && circleAnim.update == DefaultUpdate && circleAnim.interpolate == CircleDefaultInterpolate
    && disappear.duration == 0.0 && disappear.elapsed == 0.0
    && disappear.update == DefaultUpdate && disappear.interpolate == DisappearDefaultInterpolate
    && scene.Valid() && scene.objects.capacity == DA_INIT_SIZE
  }

  /** Frames 1 and 2: the wait finishes after one second, then the circle is
      revealed in full. */
  method Opening(scene: Scene, wait: Animation, circleAnim: Animation, disappear: Animation)
    requires Ready(scene, wait, circleAnim, disappear)
    requires scene.current == null && scene.objects.Contents == []
    requires scene.queue.Contents == [wait, circleAnim, wait, disappear]
    requires wait.elapsed == 0.0 && circleAnim.elapsed == 0.0
    modifies scene, scene.objects, scene.objects.buf, scene.queue, scene.queue.buf
    modifies wait, wait.target, circleAnim, circleAnim.target
    ensures Ready(scene, wait, circleAnim, disappear)
    ensures scene.objects.buf == old(scene.objects.buf) && scene.queue.buf == old(scene.queue.buf)
    ensures wait.target == old(wait.target) && circleAnim.target == old(circleAnim.target)
    ensures scene.current == null && scene.objects.Contents == [wait.target, circleAnim.target]
    ensures scene.queue.Contents == [wait, disappear]
    ensures wait.elapsed == -1.0 && circleAnim.target.shape.angle == 360.0
  {
    scene.Update(1.0);
    scene.Update(1.0);
  }

  /** Frames 3 to 6: the replayed wait needs two frames, the disappear one,
      and the last frame finds nothing to play. */
  method Closing(scene: Scene, wait: Animation, circleAnim: Animation, disappear: Animation)
      returns (replayStillWaiting: bool)
    requires Ready(scene, wait, circleAnim, disappear)
    requires scene.current == null && scene.objects.Contents == [wait.target, circleAnim.target]
    requires scene.queue.Contents == [wait, disappear]
    requires wait.elapsed == -1.0
    modifies scene, scene.objects, scene.objects.buf, scene.queue, scene.queue.buf
    modifies wait, wait.target, disappear, disappear.target
    ensures replayStillWaiting
    ensures scene.Valid() && scene.current == null && scene.queue.count == 0
    ensures scene.objects.Contents == [wait.target, circleAnim.target, wait.target, circleAnim.target]
    ensures circleAnim.target.render == DisappearRender
    ensures circleAnim.target.shape == old(circleAnim.target.shape)
    ensures wait.target == old(wait.target) && wait.target != circleAnim.target
    ensures wait.target.render == ObjectEmptyRender
  {
    scene.Update(1.0);
    replayStillWaiting := scene.current == wait;
    scene.Update(1.0);
    scene.Update(1.0);
    scene.Update(1.0);
  }

  /** Runs the timeline and reads back the registry: the wait object and the
      circle are each registered twice, as no duplicate check is made. */
  method DemoTimeline() returns (registry: seq<RaObject?>, replayStillWaiting: bool, angle: real,
                                 circleRender: RenderFn, idle: bool)
    ensures |registry| == 4 && null !in registry
    ensures registry[0] == registry[2] && registry[1] == registry[3] && registry[0] != registry[1]
    ensures registry[0].render == ObjectEmptyRender && registry[1].render == DisappearRender
    ensures replayStillWaiting
    ensures angle == 360.0
    ensures circleRender == DisappearRender
    ensures idle
  {
    var wait, circleAnim, disappear := Cast();
    var scene := Stage(wait, circleAnim, disappear);
    Opening(scene, wait, circleAnim, disappear);
    replayStillWaiting := Closing(scene, wait, circleAnim, disappear);
    var first := scene.objects.GetAt(0);
    var second := scene.objects.GetAt(1);
    var third := scene.objects.GetAt(2);
    var fourth := scene.objects.GetAt(3);
    registry := [first, second, third, fourth];
    angle := circleAnim.target.shape.angle;
    circleRender := circleAnim.target.render;
    idle := scene.current == null && scene.queue.count == 0;
  }
}
