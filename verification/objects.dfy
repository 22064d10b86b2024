/** Visual objects of the animation engine: ids handed out by the engine-wide
    counters, the base object record and the circle and rectangle shapes
    that embed it. */
module Objects {

  const U32_LIMIT: nat := 0x1_0000_0000

  /** The source's `uint32_t`. */
  type u32 = x: nat | x < U32_LIMIT

  /** `++counter` on a `uint32_t`: wraps to 0 after the largest value. */
  function Inc(x: u32): (r: u32)
    ensures r == (x + 1) % U32_LIMIT
  {
    if x + 1 == U32_LIMIT then 0 else x + 1
  }

  /** The `k` ids that `k` successive pre-increments hand out from counter value `c`. */
  function Issued(c: u32, k: nat): (ids: seq<u32>)
    ensures |ids| == k
    decreases k
  {
    if k == 0 then [] else [Inc(c)] + Issued(Inc(c), k - 1)
  }

  lemma ModTwice(a: int)
    requires 0 <= a < 2 * U32_LIMIT
    ensures a % U32_LIMIT == if a < U32_LIMIT then a else a - U32_LIMIT
  {
  }

  lemma ModShift(a: nat)
    ensures (a + U32_LIMIT) % U32_LIMIT == a % U32_LIMIT
  {
  }

  /** The i-th id handed out is the counter advanced by i + 1, modulo 2^32. */
  lemma {:induction false} IssuedAt(c: u32, k: nat, i: nat)
    requires i < k
    ensures Issued(c, k)[i] == (c + 1 + i) % U32_LIMIT
    decreases k
  {
    if i > 0 {
      IssuedAt(Inc(c), k - 1, i - 1);
      if c + 1 == U32_LIMIT {
        assert Issued(c, k)[i] == (i - 1 + 1) % U32_LIMIT;
        ModShift(i);
      }
    }
  }

  /** Ids are unique: as long as fewer than 2^32 ids are drawn from one
      counter, no two of them are equal. */
  lemma IssuedDistinct(c: u32, k: nat)
    requires k <= U32_LIMIT
    ensures forall i, j :: 0 <= i < j < k ==> Issued(c, k)[i] != Issued(c, k)[j]
  {
    forall i, j | 0 <= i < j < k
      ensures Issued(c, k)[i] != Issued(c, k)[j]
    {
      IssuedAt(c, k, i);
      IssuedAt(c, k, j);
      ModTwice(c + 1 + i);
      ModTwice(c + 1 + j);
    }
  }

  /** The two engine-wide id counters `object_id` and `animation_id`,
      owned by one value that constructors receive explicitly. */
  class IdCounter {
    var objectId: u32
    var animationId: u32

    constructor ()
      ensures objectId == 0 && animationId == 0
    {
      objectId, animationId := 0, 0;
    }

    method NextObjectId() returns (id: u32)
      modifies this`objectId
      ensures objectId == Inc(old(objectId)) && id == objectId
    {
      objectId := Inc(objectId);
      id := objectId;
    }

    method NextAnimationId() returns (id: u32)
      modifies this`animationId
      ensures animationId == Inc(old(animationId)) && id == animationId
    {
      animationId := Inc(animationId);
      id := animationId;
    }
  }

  datatype Vector2 = Vector2(x: real, y: real)

  const Origin := Vector2(0.0, 0.0)

  /** The render callbacks an object can carry. */
  datatype RenderFn =
    | ObjectEmptyRender
    | CircleDefaultRender
    | CircleFillInnerRender
    | RectangleDefaultRender
    | RectangleFillInnerRender
    | DisappearRender

  /** What a shape struct adds after its embedded base object. */
  datatype Shape =
    | Base
    | CircleShape(radius: real, angle: real, outlineThickness: real, segments: int)
    | RectangleShape(width: real, height: real, outlineThickness: real,
                     time: real, duration: real, elapsed: real)

  /** The part of an object the interpolators may touch. */
  datatype ObjectState = ObjectState(position: Vector2, render: RenderFn, shape: Shape)

  /** An object: the base record (`_id`, `position`, `render`) and, for a circle
      or a rectangle, the fields of the struct that embeds it. A pointer to the
      shape and a pointer to its base are the same reference. */
  class RaObject {
    var id: u32
    var position: Vector2
    var render: RenderFn
    var shape: Shape

    function State(): ObjectState
      reads this
    {
      ObjectState(position, render, shape)
    }

    /** A plain object. */
    constructor (counter: IdCounter, position: Vector2, render: RenderFn)
      modifies counter
      ensures counter.objectId == Inc(old(counter.objectId))
      ensures counter.animationId == old(counter.animationId)
      ensures id == counter.objectId
      ensures this.position == position && this.render == render && shape == Base
    {
      var newId := counter.NextObjectId();
      id := newId;
      this.position := position;
      this.render := render;
      shape := Base;
    }

    /** Re-initialises this object as an empty one, with a fresh id. */
    method InitEmpty(counter: IdCounter)
      modifies this, counter
      ensures counter.objectId == Inc(old(counter.objectId))
      ensures counter.animationId == old(counter.animationId)
      ensures id == counter.objectId
      ensures position == Origin && render == ObjectEmptyRender && shape == old(shape)
    {
      id := counter.NextObjectId();
      position := Origin;
      render := ObjectEmptyRender;
    }

    constructor InitCircle(counter: IdCounter, center: Vector2, radius: real,
                           outlineThickness: real, segments: int, render: RenderFn)
      modifies counter
      ensures counter.objectId == Inc(old(counter.objectId))
      ensures counter.animationId == old(counter.animationId)
      ensures id == counter.objectId
      ensures position == center && this.render == render
      ensures shape == CircleShape(radius, 0.0, outlineThickness, segments)
    {
      var newId := counter.NextObjectId();
      id := newId;
      position := center;
      this.render := render;
      shape := CircleShape(radius, 0.0, outlineThickness, segments);
    }

    /** The default circle: outline 25, 100 segments, drawn as a ring. */
    constructor DefaultCircle(counter: IdCounter, center: Vector2, radius: real)
      modifies counter
      ensures counter.objectId == Inc(old(counter.objectId))
      ensures counter.animationId == old(counter.animationId)
      ensures id == counter.objectId
      ensures position == center && render == CircleDefaultRender
      ensures shape == CircleShape(radius, 0.0, 25.0, 100)
    {
      var newId := counter.NextObjectId();
      id := newId;
      position := center;
      render := CircleDefaultRender;
      shape := CircleShape(radius, 0.0, 25.0, 100);
    }

    constructor InitRectangle(counter: IdCounter, position: Vector2, width: real, height: real,
                              outlineThickness: real, render: RenderFn)
      modifies counter
      ensures counter.objectId == Inc(old(counter.objectId))
      ensures counter.animationId == old(counter.animationId)
      ensures id == counter.objectId
      ensures this.position == position && this.render == render
      ensures shape == RectangleShape(width, height, outlineThickness, 0.0, 0.0, 0.0)
    {
      var newId := counter.NextObjectId();
      id := newId;
      this.position := position;
      this.render := render;
      shape := RectangleShape(width, height, outlineThickness, 0.0, 0.0, 0.0);
    }

    /** The default rectangle: outline 25, drawn side by side. */
    constructor DefaultRectangle(counter: IdCounter, position: Vector2, width: real, height: real)
      modifies counter
      ensures counter.objectId == Inc(old(counter.objectId))
      ensures counter.animationId == old(counter.animationId)
      ensures id == counter.objectId
      ensures this.position == position && render == RectangleDefaultRender
      ensures shape == RectangleShape(width, height, 25.0, 0.0, 0.0, 0.0)
    {
      var newId := counter.NextObjectId();
      id := newId;
      this.position := position;
      render := RectangleDefaultRender;
      shape := RectangleShape(width, height, 25.0, 0.0, 0.0, 0.0);
    }
  }
}
