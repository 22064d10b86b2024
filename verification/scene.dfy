/** The scene: a render registry, a play queue and at most one current
    animation, advanced one frame at a time by the scheduler. */
module Scenes {
  import opened Objects
  import opened Timer
  import opened Animations
  import opened Lists

  /** The scheduler's "started" and "finished" log notices. */
  datatype Event = Started(anim: Animation) | Finished(anim: Animation)

  /** The log of animations that were each started and then finished, in order. */
  function Closed(s: seq<Animation>): (log: seq<Event>)
    ensures |log| == 2 * |s|
    decreases |s|
  {
    if s == [] then []
    else Closed(s[..|s| - 1]) + [Started(s[|s| - 1]), Finished(s[|s| - 1])]
  }

  /** The log after activating the animations `s` in order, the last of them
      still running when `running` holds. */
  function Journal(s: seq<Animation>, running: bool): (log: seq<Event>)
    requires running ==> s != []
  {
    if running then Closed(s[..|s| - 1]) + [Started(s[|s| - 1])] else Closed(s)
  }

  lemma {:induction false} ClosedAt(s: seq<Animation>, k: nat)
    requires k < 2 * |s|
    ensures Closed(s)[k] == if k % 2 == 0 then Started(s[k / 2]) else Finished(s[k / 2])
    decreases |s|
  {
    var n := |s| - 1;
    if k < 2 * n {
      ClosedAt(s[..n], k);
      assert s[..n][k / 2] == s[k / 2];
    } else {
      assert Closed(s) == Closed(s[..n]) + [Started(s[n]), Finished(s[n])];
      assert k / 2 == n;
    }
  }

  /** The log alternates: the i-th activated animation is announced as started
      at position 2i and as finished at 2i + 1, so every animation finishes
      before the next one starts, and only the last one may still be running. */
  lemma JournalAt(s: seq<Animation>, running: bool, k: nat)
    requires running ==> s != []
    ensures |Journal(s, running)| == 2 * |s| - (if running then 1 else 0)
    ensures k < |Journal(s, running)| ==>
              Journal(s, running)[k] == if k % 2 == 0 then Started(s[k / 2]) else Finished(s[k / 2])
  {
    if k < |Journal(s, running)| {
      if !running {
        ClosedAt(s, k);
      } else {
        var n := |s| - 1;
        if k < 2 * n {
          ClosedAt(s[..n], k);
          assert s[..n][k / 2] == s[k / 2];
        } else {
          assert k / 2 == n;
        }
      }
    }
  }

  class Scene {
    /** The render registry, in activation order. */
    const objects: ObjectList
    /** The play queue. */
    const queue: AnimationList
    var current: Animation?
    /** Every animation handed to `Play`, in order. */
    ghost var played: seq<Animation>
    /** Every animation the scheduler has activated, in order. */
    ghost var started: seq<Animation>
    ghost var log: seq<Event>

    /** Animations are activated in the order they were played; the registry
        gained one object per activation; the current animation is the one most
        recently activated; and the log records each activation, and each
        completion before the next activation. */
    ghost predicate Valid()
      reads this, objects, objects.buf, queue, queue.buf
    {
      && objects.Valid() && queue.Valid()
      && played == started + queue.Contents
      && |objects.Contents| == |started|
      && (current != null ==> started != [] && current == started[|started| - 1])
      && log == Journal(started, current != null)
    }

    /** The animation the next update will advance: the current one, or else the head of the queue. */
    ghost function Scheduled(): Animation?
      reads this, queue
    {
      if current != null then current
      else if queue.Contents != [] then queue.Contents[0]
      else null
    }

    constructor ()
      ensures Valid()
      ensures fresh(objects) && fresh(objects.buf) && fresh(queue) && fresh(queue.buf)
      ensures objects.capacity == DA_INIT_SIZE && queue.capacity == DA_INIT_SIZE
      ensures current == null && objects.Contents == [] && queue.Contents == []
      ensures played == [] && started == [] && log == []
    {
      current := null;
      objects := new ObjectList();
      queue := new AnimationList();
      played, started, log := [], [], [];
    }

    /** Enqueues `anim` at the tail of the play queue. */
    method Play(anim: Animation)
      requires Valid()
      modifies this, queue, queue.buf
      ensures Valid()
      ensures if old(queue.count) < old(queue.capacity) then queue.buf == old(queue.buf) else fresh(queue.buf)
      ensures queue.capacity == if old(queue.count) < old(queue.capacity) then old(queue.capacity) else 2 * old(queue.capacity)
      ensures queue.Contents == old(queue.Contents) + [anim] && played == old(played) + [anim]
      ensures current == old(current) && started == old(started) && log == old(log)
    {
      queue.Push(anim);
      played := played + [anim];
    }

    /** One frame. With no current animation, the head of the queue becomes
        current and its target is appended to the registry (duplicates are
        kept, and the animation's elapsed time is not reset). The current
        animation is then advanced by `dt` and dropped once it reports completion. */
    method Update(dt: real)
      requires Valid()
      requires Scheduled() != null ==> Scheduled().Coherent()
      modifies this, objects, objects.buf, queue, queue.buf
      modifies if Scheduled() != null then {Scheduled(), Scheduled().target} else {}
      ensures Valid() && played == old(played)
      ensures if old(current) == null && old(queue.Contents) != [] && old(objects.count) == old(objects.capacity)
              then fresh(objects.buf) && objects.capacity == 2 * old(objects.capacity)
              else objects.buf == old(objects.buf) && objects.capacity == old(objects.capacity)
      ensures queue.buf == old(queue.buf) && queue.capacity == old(queue.capacity)
      ensures old(current) == null && old(queue.Contents) != [] ==>
                && queue.Contents == old(queue.Contents)[1..]
                && objects.Contents == old(objects.Contents) + [old(queue.Contents[0].target)]
                && started == old(started) + [old(queue.Contents[0])]
      ensures old(current) != null || old(queue.Contents) == [] ==>
                && queue.Contents == old(queue.Contents)
                && objects.Contents == old(objects.Contents)
                && started == old(started)
      ensures var a := old(Scheduled());
              a != null ==>
                var done := Step(old(a.elapsed), old(a.duration), dt).completed;
                a.Advanced(dt, done) && current == (if done then null else a)
      ensures old(Scheduled()) == null ==>
                current == null && unchanged(this, objects, objects.buf, queue, queue.buf)
    {
      Activate();
      Advance(dt);
    }

    /** The first half of a frame: an idle scene takes the head of the queue. */
    method Activate()
      requires Valid()
      modifies this, objects, objects.buf, queue, queue.buf
      ensures Valid() && played == old(played) && Scheduled() == old(Scheduled())
      ensures current == Scheduled()
      ensures if old(current) == null && old(queue.Contents) != [] && old(objects.count) == old(objects.capacity)
              then fresh(objects.buf) && objects.capacity == 2 * old(objects.capacity)
              else objects.buf == old(objects.buf) && objects.capacity == old(objects.capacity)
      ensures queue.buf == old(queue.buf) && queue.capacity == old(queue.capacity)
      ensures old(current) == null && old(queue.Contents) != [] ==>
                && queue.Contents == old(queue.Contents)[1..]
                && objects.Contents == old(objects.Contents) + [old(queue.Contents[0].target)]
                && started == old(started) + [old(queue.Contents[0])]
      ensures old(current) != null || old(queue.Contents) == [] ==>
                unchanged(this, objects, objects.buf, queue, queue.buf)
    {
      if current == null && queue.count > 0 {
        var a := queue.PopFirst();
        current := a;
        log := log + [Started(a)];
        assert (started + [a])[..|started|] == started;
        started := started + [a];
        objects.Push(a.target);
      }
    }

    /** The second half of a frame: the current animation is advanced and
        dropped once it reports completion. */
    method Advance(dt: real)
      requires Valid()
      requires current != null ==> current.Coherent()
      modifies this`current, this`log
      modifies if current != null then {current, current.target} else {}
      ensures Valid()
      ensures played == old(played) && started == old(started)
      ensures old(current) != null ==>
                var done := Step(old(current.elapsed), old(current.duration), dt).completed;
                old(current).Advanced(dt, done) && current == (if done then null else old(current))
      ensures old(current) == null ==> current == null && log == old(log)
    {
      if current != null {
        var done := current.Update(dt);
        if done {
          log := log + [Finished(current)];
          current := null;
        }
      }
    }
  }
}
