/** Animations: a timer bound to one target object, driven through its update
    and interpolate callbacks, and the built-in circle, rectangle, wait and
    disappear animations. */
module Animations {
  import opened Objects
  import opened Timer

  /** The update callbacks; the engine defines only the default timer. */
  datatype UpdateFn = DefaultUpdate

  /** The interpolate callbacks of the built-in animations. */
  datatype InterpolateFn =
    | CircleDefaultInterpolate
    | RectangleDefaultInterpolate
    | WaitInterpolate
    | DisappearDefaultInterpolate

  /** An interpolator that casts the target to a shape may only be bound to an
      object of that shape. */
  predicate Fits(f: InterpolateFn, shape: Shape) {
    match f
    case CircleDefaultInterpolate => shape.CircleShape?
    case RectangleDefaultInterpolate => shape.RectangleShape?
    case _ => true
  }

  predicate SameKind(a: Shape, b: Shape) {
    a.Base? == b.Base? && a.CircleShape? == b.CircleShape? && a.RectangleShape? == b.RectangleShape?
  }

  /** The circle's reveal angle, in degrees, for a progress. */
  function SweepAngle(progress: real): (angle: real)
    ensures 0.0 <= progress <= 1.0 ==> 0.0 <= angle <= 360.0
    ensures angle == 360.0 <==> progress == 1.0
    ensures angle == 0.0 <==> progress == 0.0
  {
    progress * 360.0
  }

  /** What interpolator `f` does to the target's state, given the progress and
      the animation's duration and elapsed time at the moment of the call. */
  function Interpolated(f: InterpolateFn, o: ObjectState, progress: real,
                        duration: real, elapsed: real): (r: ObjectState)
    requires Fits(f, o.shape)
    ensures r.position == o.position
    ensures SameKind(r.shape, o.shape) && Fits(f, r.shape)
    ensures f == WaitInterpolate ==> r == o
    ensures f == DisappearDefaultInterpolate ==> r == o.(render := DisappearRender)
    ensures f != DisappearDefaultInterpolate ==> r.render == o.render
    ensures f == CircleDefaultInterpolate ==>
              r.shape == o.shape.(angle := SweepAngle(progress))
    ensures f == RectangleDefaultInterpolate ==>
              r.shape == o.shape.(time := progress, duration := duration, elapsed := elapsed)
  {
    match f
    case CircleDefaultInterpolate => o.(shape := o.shape.(angle := SweepAngle(progress)))
    case RectangleDefaultInterpolate =>
      o.(shape := o.shape.(time := progress, duration := duration, elapsed := elapsed))
    case WaitInterpolate => o
    case DisappearDefaultInterpolate => o.(render := DisappearRender)
  }

  class Animation {
    var id: u32
    var target: RaObject
    var duration: real
    var elapsed: real
    var update: UpdateFn
    var interpolate: InterpolateFn

    /** The interpolator can be applied to the target. */
    ghost predicate Coherent()
      reads this, target
    {
      Fits(interpolate, target.shape)
    }

    /** One call of the update callback: the timer moved as `Step` says, the
        target received the interpolation at the step's progress, and nothing
        else changed. */
    twostate predicate Advanced(dt: real, completed: bool)
      reads this, target
    {
      var s := Step(old(elapsed), old(duration), dt);
      && id == old(id) && target == old(target) && duration == old(duration)
      && update == old(update) && interpolate == old(interpolate)
      && completed == s.completed && elapsed == s.elapsed
      && old(Fits(interpolate, target.shape))
      && target.id == old(target.id)
      && target.State() == Interpolated(interpolate, old(target.State()), s.progress,
                                        duration, old(elapsed) + dt)
    }

    /** An animation of `target`: fresh id, zero elapsed time. */
    constructor (counter: IdCounter, target: RaObject, duration: real,
                 update: UpdateFn, interpolate: InterpolateFn)
      modifies counter
      ensures counter.animationId == Inc(old(counter.animationId))
      ensures counter.objectId == old(counter.objectId)
      ensures id == counter.animationId
      ensures this.target == target && this.duration == duration && elapsed == 0.0
      ensures this.update == update && this.interpolate == interpolate
    {
      var newId := counter.NextAnimationId();
      id := newId;
      this.target := target;
      this.duration := duration;
      elapsed := 0.0;
      this.update := update;
      this.interpolate := interpolate;
    }

    /** An animation driven by the default timer. */
    constructor WithDefaultUpdate(counter: IdCounter, target: RaObject, duration: real,
                                  interpolate: InterpolateFn)
      modifies counter
      ensures counter.animationId == Inc(old(counter.animationId))
      ensures counter.objectId == old(counter.objectId)
      ensures id == counter.animationId
      ensures this.target == target && this.duration == duration && elapsed == 0.0
      ensures update == DefaultUpdate && this.interpolate == interpolate
    {
      var newId := counter.NextAnimationId();
      id := newId;
      this.target := target;
      this.duration := duration;
      elapsed := 0.0;
      update := DefaultUpdate;
      this.interpolate := interpolate;
    }

    /** The default circle reveal: 0.7 seconds. */
    constructor CircleReveal(counter: IdCounter, circle: RaObject)
      requires circle.shape.CircleShape?
      modifies counter
      ensures counter.animationId == Inc(old(counter.animationId))
      ensures counter.objectId == old(counter.objectId)
      ensures id == counter.animationId
      ensures target == circle && duration == 0.7 && elapsed == 0.0
      ensures update == DefaultUpdate && interpolate == CircleDefaultInterpolate
      ensures Coherent()
    {
      var newId := counter.NextAnimationId();
      id := newId;
      target := circle;
      duration := 0.7;
      elapsed := 0.0;
      update := DefaultUpdate;
      interpolate := CircleDefaultInterpolate;
    }

    /** The default rectangle reveal: 0.7 seconds. */
    constructor RectangleReveal(counter: IdCounter, rect: RaObject)
      requires rect.shape.RectangleShape?
      modifies counter
      ensures counter.animationId == Inc(old(counter.animationId))
      ensures counter.objectId == old(counter.objectId)
      ensures id == counter.animationId
      ensures target == rect && duration == 0.7 && elapsed == 0.0
      ensures update == DefaultUpdate && interpolate == RectangleDefaultInterpolate
      ensures Coherent()
    {
      var newId := counter.NextAnimationId();
      id := newId;
      target := rect;
      duration := 0.7;
      elapsed := 0.0;
      update := DefaultUpdate;
      interpolate := RectangleDefaultInterpolate;
    }

    /** A wait of `duration` seconds. Every wait is bound to the one shared
        engine-owned empty object `waitObject`, a plain object with no shape,
        which this re-initialises, giving it a new object id. */
    constructor Wait(counter: IdCounter, waitObject: RaObject, duration: real)
      requires waitObject.shape == Base
      modifies counter, waitObject
      ensures counter.objectId == Inc(old(counter.objectId))
      ensures counter.animationId == Inc(old(counter.animationId))
      ensures waitObject.id == counter.objectId && id == counter.animationId
      ensures waitObject.position == Origin && waitObject.render == ObjectEmptyRender
      ensures waitObject.shape == old(waitObject.shape)
      ensures target == waitObject && this.duration == duration && elapsed == 0.0
      ensures update == DefaultUpdate && interpolate == WaitInterpolate
      ensures Coherent()
    {
      waitObject.InitEmpty(counter);
      var newId := counter.NextAnimationId();
      id := newId;
      target := waitObject;
      this.duration := duration;
      elapsed := 0.0;
      update := DefaultUpdate;
      interpolate := WaitInterpolate;
    }

    /** The default disappear: zero duration, so it finishes on its first update. */
    constructor Disappear(counter: IdCounter, obj: RaObject)
      modifies counter
      ensures counter.animationId == Inc(old(counter.animationId))
      ensures counter.objectId == old(counter.objectId)
      ensures id == counter.animationId
      ensures target == obj && duration == 0.0 && elapsed == 0.0
      ensures update == DefaultUpdate && interpolate == DisappearDefaultInterpolate
      ensures Coherent()
    {
      var newId := counter.NextAnimationId();
      id := newId;
      target := obj;
      duration := 0.0;
      elapsed := 0.0;
      update := DefaultUpdate;
      interpolate := DisappearDefaultInterpolate;
    }

    /** Calls the interpolate callback with `progress`. */
    method Interpolate(progress: real)
      requires Coherent()
      modifies target
      ensures target.id == old(target.id)
      ensures target.State() == Interpolated(interpolate, old(target.State()), progress,
                                             duration, elapsed)
    {
      match interpolate
      case CircleDefaultInterpolate =>
        target.shape := target.shape.(angle := SweepAngle(progress));
      case RectangleDefaultInterpolate =>
        target.shape := target.shape.(time := progress, duration := duration, elapsed := elapsed);
      case WaitInterpolate =>
      case DisappearDefaultInterpolate =>
        target.render := DisappearRender;
    }

    /** The default timer. The interpolator runs before the completion test, so
        it sees the accumulated elapsed time, never the -1 written afterwards. */
    method DefaultUpdateStep(dt: real) returns (completed: bool)
      requires Coherent()
      modifies this, target
      ensures Advanced(dt, completed)
      ensures completed <==> old(elapsed) + dt >= duration
      ensures completed && duration >= 0.0 && interpolate == CircleDefaultInterpolate ==>
                target.shape.angle == 360.0
      ensures completed && interpolate == RectangleDefaultInterpolate ==>
                target.shape.elapsed >= target.shape.duration
    {
      elapsed := elapsed + dt;
      Interpolate(Progress(elapsed, duration));
      completed := elapsed >= duration;
      if completed {
        elapsed := -1.0;
      }
    }

    /** Calls the update callback. */
    method Update(dt: real) returns (completed: bool)
      requires Coherent()
      modifies this, target
      ensures Advanced(dt, completed)
    {
      match update
      case DefaultUpdate =>
        completed := DefaultUpdateStep(dt);
    }
  }
}
