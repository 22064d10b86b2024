# rayanim timeline engine in Dafny

rayanim is a small C animation library on top of raylib. A program builds
objects (circles, rectangles), binds each to an animation, and queues the
animations on a scene. Every frame, `RA_Scene_update` advances the scene.
When the scene is idle, it takes the head of the queue, registers that
animation's target object for drawing, and makes the animation current. It
then calls the current animation's update callback. The default timer adds the
frame time to the elapsed time and hands `min(elapsed / duration, 1)` to the
animation's interpolate callback. Once elapsed time reaches the duration, the
timer reports completion and the scene drops the animation.

This project models that engine and proves its contracts:

- `objects.dfy` (module `Objects`): the engine-wide id counters as an
  `IdCounter` object with 32-bit wrap-around. It also holds the base object
  and the circle and rectangle records. These are one `RaObject` class whose
  `shape` field carries the embedding struct's extra fields, because a shape
  pointer and its base pointer are the same reference.
- `timer.dfy` (module `Timer`): the default update as values. It covers one
  step, a run of steps over a sequence of frame times, and the progress that is
  handed to the interpolator.
- `animations.dfy` (module `Animations`): the `Animation` class and its
  built-in initialisers. The callbacks are datatype tags dispatched by `match`,
  and the four interpolators are given as a specification function
  (`Interpolated`) and a method.
- `lists.dfy` (module `Lists`): the object list and the animation list. Each
  is an array of pointers with `count` and `capacity` and a ghost `Contents`
  sequence.
- `scene.dfy` (module `Scenes`): the `Scene` class and its scheduler. Ghost
  state records the order animations were played and started, and the
  started and finished log notices.
- `scenario.dfy` (module `Timeline`): a four-entry queue in the style of the
  demo program, stepped frame by frame through the scene.

Time and progress are `real`. Ids are `u32`, with wrap-around written out.

## Model

| member | source | states |
|---|---|---|
| Objects.Inc | src/rayanim.c:135 | pre-increment of a `uint32_t` counter: the next value modulo 2^32 |
| Objects.IssuedAt | src/rayanim.c:8-9 | the i-th id handed out from counter value c is (c + 1 + i) mod 2^32 |
| Objects.IssuedDistinct | src/rayanim.c:134-138 | while at most 2^32 ids are drawn from one counter, no two are equal |
| Objects.IdCounter.constructor | src/rayanim.c:8-9 | both counters start at 0 |
| Objects.IdCounter.NextObjectId | src/rayanim.c:135 | increments `object_id` with wrap-around and returns the new value; the animation counter is untouched |
| Objects.IdCounter.NextAnimationId | src/rayanim.c:153 | increments `animation_id` with wrap-around and returns the new value |
| Objects.RaObject.constructor | src/rayanim.c:134-138 | the object gets the next object id, the given position and render callback; the animation counter is untouched |
| Objects.RaObject.InitEmpty | src/rayanim.c:140-142 | re-initialises an object at (0, 0) with the empty render and a new id |
| Objects.RaObject.InitCircle | src/rayanim.c:260-275 | a circle with the next id, the given centre, radius, outline, segments and render, and sweep angle 0 |
| Objects.RaObject.DefaultCircle | src/rayanim.c:277-285 | the default circle: outline 25, 100 segments, ring render, angle 0 |
| Objects.RaObject.InitRectangle | src/rayanim.c:350-367 | a rectangle with the next id and its timer mirror (`_time`, `_duration`, `_elapsed_time`) at 0 |
| Objects.RaObject.DefaultRectangle | src/rayanim.c:369-378 | the default rectangle: outline 25, side-by-side render |
| Timer.Progress | src/rayanim.c:172 | progress never exceeds 1; for a positive duration it is 1 exactly when elapsed has reached the duration, and it is not negative for non-negative elapsed; zero duration gives 1 |
| Timer.Step | src/rayanim.c:168-178 | one default update: completes iff elapsed + dt >= duration; then elapsed becomes -1, otherwise elapsed + dt; a completing step of a non-negative duration hands progress 1, a non-completing step of a positive duration hands progress below 1 |
| Timer.Run | src/rayanim.c:168-178 | one step result per frame time |
| Timer.RunUntilDone | src/rayanim.c:168-178 | over successive frames, until the first completion, the timer accumulates every frame time: frame i completes iff the start plus the frame times so far reaches the duration, and its progress is that of the accumulated time |
| Timer.ProgressMonotone | src/rayanim.c:172 | for a non-negative duration, more elapsed time never gives less progress |
| Timer.ProgressNeverDecreases | src/rayanim.c:168-178 | with non-negative frame times, the progress of a running animation never goes down from one frame to the next |
| Timer.QuarterSteps | src/rayanim.c:168-178 | a fresh animation stepped by a quarter of its duration hands 0.25, 0.5, 0.75, 1 and completes on the fourth call only, leaving elapsed at -1 |
| Timer.ReplayLastsOneSecondLonger | src/rayanim.c:175 | an animation run again after completing starts from -1, so it completes once the frame times reach its duration plus one second |
| Timer.ZeroDurationCompletion | src/rayanim.c:569-572 | a fresh zero-duration animation (disappear) completes on its first call for any dt >= 0 with progress 1; after a completion it needs dt >= 1 |
| Animations.SweepAngle | src/rayanim.c:340-344 | the circle's angle is progress times 360: within [0, 360] for progress in [0, 1], 360 iff progress is 1, 0 iff progress is 0 |
| Animations.Interpolated | src/rayanim.c:340-344 | each interpolator keeps the position and the shape kind; circle sets the angle (src/rayanim.c:340-344), rectangle copies progress, duration and elapsed (src/rayanim.c:526-532), wait changes nothing (src/rayanim.c:552-555), disappear replaces only the render callback (src/rayanim.c:580-584) |
| Animations.Animation.constructor | src/rayanim.c:148-159 | a new animation has the next animation id, the given target, duration and callbacks, and elapsed 0 |
| Animations.Animation.WithDefaultUpdate | src/rayanim.c:161-166 | as the general initialiser, with the default timer |
| Animations.Animation.CircleReveal | src/rayanim.c:329-338 | the default circle animation: 0.7 seconds, default timer, circle interpolator |
| Animations.Animation.RectangleReveal | src/rayanim.c:515-524 | the default rectangle animation: 0.7 seconds, default timer, rectangle interpolator |
| Animations.Animation.Wait | src/rayanim.c:538-550 | a wait re-initialises the one shared plain (shapeless) object (new object id, origin, empty render) and targets it |
| Animations.Animation.Disappear | src/rayanim.c:569-578 | the default disappear: duration 0, default timer, disappear interpolator |
| Animations.Animation.Interpolate | src/rayanim.c:526-532 | the target's new state is `Interpolated` of its old state, and its id is kept; the wait and disappear bodies are at src/rayanim.c:552-555 and 580-584 |
| Animations.Animation.DefaultUpdateStep | src/rayanim.c:168-178 | the animation and its target move as `Step` and `Interpolated` say; completion iff old elapsed + dt >= duration; a completed circle shows the full 360 degrees and a completed rectangle sees its elapsed time at or past its duration |
| Animations.Animation.Update | src/rayanim.c:218-219 | the update callback call, dispatched on the tag, with the effect of the default timer |
| Lists.PushedAsWritten | src/rayanim.c:18-28 | `push` with the result of `realloc` dropped: after n pushes the list still points at its first block, count <= capacity holds only for the recorded capacity, and from the 13th push on a `realloc` result has been dropped |
| Lists.CapacityAsWritten | src/rayanim.c:21-22 | as written, the recorded capacity doubles at the 13th, 25th and 49th pushes, each dropping one `realloc` result |
| Lists.ObjectListOverrunAsWritten | src/rayanim.c:14 | the object list's first block, sized as 12 records of 24 bytes, has 36 pointer slots; without the `realloc` call the 37th push, with recorded capacity 48, writes one past it |
| Lists.AnimationListOverrunAsWritten | src/rayanim.c:68 | the animation list's first block, sized as 12 records of 40 bytes, has 60 pointer slots; without the `realloc` call the 61st push, with recorded capacity 96, writes one past it |
| Lists.ObjectList.constructor | src/rayanim.c:11-16 | an empty list with capacity `DA_INIT_SIZE` = 12 |
| Lists.ObjectList.Push | src/rayanim.c:18-28 | appends at the tail, earlier elements unchanged; when full the capacity doubles first; count <= capacity is kept |
| Lists.ObjectList.Pop | src/rayanim.c:30-36 | empty: returns null and changes nothing; else returns the last element and leaves the prefix |
| Lists.ObjectList.GetAt | src/rayanim.c:38-44 | the element at idx, or null when idx >= count |
| Lists.ObjectList.Set | src/rayanim.c:46-52 | in range, replaces only slot idx; out of range, changes nothing |
| Lists.ObjectList.Contains | src/rayanim.c:54-59 | true iff some stored object has the argument's id; true for a stored object; membership of the object itself when no other stored object shares its id |
| Lists.AnimationList.constructor | src/rayanim.c:65-70 | an empty list with capacity 12 |
| Lists.AnimationList.Push | src/rayanim.c:72-82 | appends at the tail, doubling a full list's capacity first |
| Lists.AnimationList.Pop | src/rayanim.c:84-90 | null on empty; else the last element, prefix kept |
| Lists.AnimationList.PopFirst | src/rayanim.c:92-105 | null on empty; else the former head, with the rest in order shifted left by one |
| Lists.AnimationList.GetAt | src/rayanim.c:107-113 | the element at idx, or null when idx >= count |
| Lists.AnimationList.Set | src/rayanim.c:115-121 | in range, replaces only slot idx; out of range, changes nothing |
| Lists.AnimationList.Contains | src/rayanim.c:123-128 | true iff some queued animation has the argument's id; true for a queued animation; membership of the animation itself when no other queued animation shares its id |
| Scenes.Closed | src/rayanim.c:213-220 | the log of n started-and-finished animations has 2n notices |
| Scenes.ClosedAt | src/rayanim.c:213-220 | notice 2i announces the start of the i-th animation and 2i + 1 its finish |
| Scenes.JournalAt | src/rayanim.c:209-223 | the scene's log alternates started and finished, in activation order; only the last animation may still be running |
| Scenes.Scene.constructor | src/rayanim.c:180-189 | no current animation, two fresh empty lists of capacity 12, empty log |
| Scenes.Scene.Play | src/rayanim.c:191-195 | appends to the queue and changes nothing else |
| Scenes.Scene.Activate | src/rayanim.c:210-216 | an idle scene with a non-empty queue pops the head, makes it current and appends its target to the registry, without a duplicate check |
| Scenes.Scene.Advance | src/rayanim.c:218-222 | the current animation is advanced by its update callback and cleared exactly when that reports completion |
| Scenes.Scene.Update | src/rayanim.c:209-223 | one frame: animations start in play order, at most one is current, the registry only grows, the scheduled animation advances as `Advanced` says, and an idle scene with an empty queue is unchanged |
| Timeline.DemoTimeline | src/test.c:34-64 | wait, reveal, the same wait again, disappear at one second per frame: the registry read back holds the wait object, the circle, the wait object and the circle again, the replayed wait still running after one second, a full circle, then the disappear render and an idle scene |

## Left out

- Drawing: `RA_Scene_render` and the circle and rectangle render functions only
  issue raylib calls. Renders are the tags of `RenderFn`.
- The window, clock and key loop (`playScene`), the `recordScene` stub, and the
  hot-reload host in `src/main.c` and `src/plug.c`. Frame times are parameters.
- `TraceLog` output: it is kept only as the ghost `log` of `Started`/`Finished`
  notices.
- Colours, title, width and height of scenes and shapes: presentation only.
- `RA_Scene_destroy` and the list `destroy` functions: the model has no
  explicit deallocation.
- `RA_CircleAnimation_init`, `RA_RectangleAnimation_init` and
  `RA_DisappearAnimation_init` only forward to `RA_Animation_init`. They are the
  general `Animation` constructor. The `_create` functions return a copy of what
  the `init`/`defaultInit` functions build, so the constructors stand for both.
- The sync and move composites, `RA_SyncAnimation_create`, `startScene` and
  `RA_Rectangle_defaultDisappearRender` are declared or used but have no
  definition in the sources, so they are not part of this model. The scenario
  queues the first circle's reveal where the demo queues the group of two circles,
  and it leaves out the rectangle.
- Timer.Progress: models IEEE single precision as exact reals. For a zero
  duration it gives 1 for every elapsed time. `fminf` gives 1 for a positive
  or zero elapsed, but the float division gives negative infinity for the -1 a
  completed animation keeps.
- Lists.ObjectList.Push: grows into a fresh buffer that keeps the contents (see
  Findings). The code as written drops `realloc`'s result, and that is modelled
  separately by `PushedAsWritten`.
- Lists.AnimationList.Push: the same as `ObjectList.Push`.
- `count` and `capacity` are unbounded naturals. The `uint32_t` overflow of a
  list of 2^32 elements is not modelled.
- The `malloc` sizes use the record size instead of the pointer size. Only the
  as-written layout (`PushedAsWritten`) counts those slots, on an LP64 target;
  the corrected lists size their buffers by `capacity`.
- List elements are never null, and every animation has a target object
  (`Animation.target` is non-null). An animation without one, which
  `RA_Scene_update` would register as NULL and `RA_Scene_render` would skip
  (src/rayanim.c:203), is not modelled. Every built-in initialiser passes a real
  object.
- Objects.IssuedDistinct: ids are unique only until a counter wraps, that is,
  for at most 2^32 draws from one counter.

Three behaviours of the code a reader may not expect; the model follows the code:

- An animation is not reset when the scene activates it. An animation queued
  twice, such as the wait in the demo, starts its second run from the -1 its
  first completion left, so it lasts one second longer
  (`Timer.ReplayLastsOneSecondLonger`, `Timeline.DemoTimeline`).
- A completed animation is not inert: updating it again accumulates from -1.
- The registry has no duplicate check (the test at src/rayanim.c:214 is commented
  out). An object whose animation plays twice is registered twice.

## Findings

| source | as written | input that shows it | evidently intended | confidence | as-written member | corrected member |
|---|---|---|---|---|---|---|
| src/rayanim.c:23 | `assert(realloc(obj_list->objects, ...) != NULL)` drops the returned block. From the 13th push on the list keeps a pointer that `realloc` may have freed; with `NDEBUG` the call is removed and the first block never grows. | with `NDEBUG`: 37 pushes onto a fresh object list; the first block has 36 pointer slots (12 × 24 bytes), the recorded capacity is 48, and the 37th push writes slot 36 | store the block `realloc` returns, so the buffer really has `capacity` slots and the contents are kept | high (not executed) | Lists.ObjectListOverrunAsWritten | Lists.ObjectList.Push |
| src/rayanim.c:77 | the same dropped `realloc` result in the animation list's `push` | with `NDEBUG`: 61 pushes onto a fresh animation list; the first block has 60 pointer slots (12 × 40 bytes), the recorded capacity is 96, and the 61st push writes slot 60 | as above | high (not executed) | Lists.AnimationListOverrunAsWritten | Lists.AnimationList.Push |
