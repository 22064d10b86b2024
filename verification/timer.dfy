/** The default animation timer as values: what one call of the default
    update does to an animation's elapsed time, which progress it hands to
    the interpolator and when it reports completion. */
module Timer {

  /** The outcome of one call of the default update. */
  datatype StepResult = StepResult(elapsed: real, progress: real, completed: bool)

  function Min(a: real, b: real): (m: real)
    ensures m <= a && m <= b && (m == a || m == b)
  {
    if a <= b then a else b
  }

  /** The progress handed to the interpolator, `min(elapsed / duration, 1)`.
      A zero duration gives full progress. */
  function Progress(elapsed: real, duration: real): (p: real)
    ensures p <= 1.0
    ensures duration > 0.0 ==> (p == 1.0 <==> elapsed >= duration)
    ensures duration > 0.0 && elapsed >= 0.0 ==> 0.0 <= p
    ensures duration == 0.0 ==> p == 1.0
  {
    if duration == 0.0 then 1.0
    else
      if duration > 0.0 then
        assert elapsed >= duration <==> elapsed / duration >= 1.0 by {
          DivScale(elapsed, duration);
        }
        Min(elapsed / duration, 1.0)
      else
        Min(elapsed / duration, 1.0)
  }

  lemma DivScale(a: real, d: real)
    requires d > 0.0
    ensures a / d >= 1.0 <==> a >= d
    ensures a >= 0.0 ==> a / d >= 0.0
  {
    assert a == (a / d) * d;
  }

  /** One call: `elapsed += dt`, interpolate at the new progress, report
      completion once elapsed reaches the duration and then set elapsed to -1. */
  function Step(elapsed: real, duration: real, dt: real): (s: StepResult)
    ensures s.completed <==> elapsed + dt >= duration
    ensures s.completed ==> s.elapsed == -1.0
    ensures !s.completed ==> s.elapsed == elapsed + dt
    ensures s.progress <= 1.0
    ensures s.completed && duration >= 0.0 ==> s.progress == 1.0
    ensures !s.completed && duration > 0.0 ==> s.progress < 1.0
  {
    var e := elapsed + dt;
    var done := e >= duration;
    StepResult(if done then -1.0 else e, Progress(e, duration), done)
  }

  /** The results of feeding the frame times `dts` to the default update, one
      call per frame, starting from `elapsed`. */
  function Run(elapsed: real, duration: real, dts: seq<real>): (r: seq<StepResult>)
    ensures |r| == |dts|
    decreases |dts|
  {
    if dts == [] then []
    else
      var s := Step(elapsed, duration, dts[0]);
      [s] + Run(s.elapsed, duration, dts[1..])
  }

  function Sum(dts: seq<real>): (s: real)
    decreases |dts|
  {
    if dts == [] then 0.0 else dts[0] + Sum(dts[1..])
  }

  /** The frame time accumulated over the first `n` frames. */
  function Accumulated(dts: seq<real>, n: nat): (s: real)
    requires n <= |dts|
  {
    Sum(dts[..n])
  }

  lemma {:induction false} SumSnoc(dts: seq<real>, x: real)
    ensures Sum(dts + [x]) == Sum(dts) + x
    decreases |dts|
  {
    if dts == [] {
      assert [x][1..] == [];
    } else {
      assert (dts + [x])[1..] == dts[1..] + [x];
      SumSnoc(dts[1..], x);
    }
  }

  lemma AccumulatedCons(dts: seq<real>, n: nat)
    requires 0 < n < |dts|
    ensures Accumulated(dts, n + 1) == dts[0] + Accumulated(dts[1..], n)
  {
    assert dts[..n + 1][1..] == dts[1..][..n];
  }

  /** Until it first reports completion, an animation started at `elapsed`
      accumulates every frame time: the call on frame `i` completes exactly when
      `elapsed` plus the frame times so far reaches the duration, and hands the
      interpolator the progress of that accumulated time. */
  lemma {:induction false} RunUntilDone(elapsed: real, duration: real, dts: seq<real>, i: nat)
    requires i < |dts|
    requires forall n :: 1 <= n <= i ==> elapsed + Accumulated(dts, n) < duration
    ensures forall j :: 0 <= j < i ==> !Run(elapsed, duration, dts)[j].completed
    ensures Run(elapsed, duration, dts)[i].completed <==> elapsed + Accumulated(dts, i + 1) >= duration
    ensures Run(elapsed, duration, dts)[i].progress == Progress(elapsed + Accumulated(dts, i + 1), duration)
    ensures !Run(elapsed, duration, dts)[i].completed ==>
              Run(elapsed, duration, dts)[i].elapsed == elapsed + Accumulated(dts, i + 1)
    decreases i
  {
    var r := Run(elapsed, duration, dts);
    var s := Step(elapsed, duration, dts[0]);
    assert r[0] == s;
    assert Accumulated(dts, 1) == dts[0] by {
      assert dts[..1][1..] == [];
      assert Sum(dts[..1]) == dts[..1][0] + Sum(dts[..1][1..]);
    }
    if i > 0 {
      var rest := dts[1..];
      assert !s.completed && s.elapsed == elapsed + dts[0];
      forall n | 1 <= n <= i - 1
        ensures s.elapsed + Accumulated(rest, n) < duration
      {
        AccumulatedCons(dts, n);
        assert elapsed + Accumulated(dts, n + 1) < duration;
      }
      RunUntilDone(s.elapsed, duration, rest, i - 1);
      var r' := Run(s.elapsed, duration, rest);
      assert r == [s] + r';
      AccumulatedCons(dts, i);
      forall j | 0 <= j < i
        ensures !r[j].completed
      {
        if j > 0 {
          assert r[j] == r'[j - 1];
        }
      }
    }
  }

  lemma DivMonotone(a: real, b: real, d: real)
    requires d > 0.0 && a <= b
    ensures a / d <= b / d
  {
    var x, y := a / d, b / d;
    assert x * d == a && y * d == b;
  }

  /** While the duration is not negative, more elapsed time never means less progress. */
  lemma ProgressMonotone(e1: real, e2: real, duration: real)
    requires duration >= 0.0
    requires e1 <= e2
    ensures Progress(e1, duration) <= Progress(e2, duration)
  {
    if duration > 0.0 {
      DivMonotone(e1, e2, duration);
    }
  }

  /** The progress an animation shows never goes down from one frame to the
      next, as long as frame times are not negative and it has not yet completed. */
  lemma ProgressNeverDecreases(elapsed: real, duration: real, dts: seq<real>, i: nat)
    requires duration >= 0.0
    requires i + 1 < |dts|
    requires dts[i + 1] >= 0.0
    requires forall n :: 1 <= n <= i + 1 ==> elapsed + Accumulated(dts, n) < duration
    ensures Run(elapsed, duration, dts)[i].progress <= Run(elapsed, duration, dts)[i + 1].progress
  {
    RunUntilDone(elapsed, duration, dts, i);
    RunUntilDone(elapsed, duration, dts, i + 1);
    assert dts[..i + 2] == dts[..i + 1] + [dts[i + 1]];
    SumSnoc(dts[..i + 1], dts[i + 1]);
    ProgressMonotone(elapsed + Accumulated(dts, i + 1), elapsed + Accumulated(dts, i + 2), duration);
  }

  /** A fresh animation of duration D advanced four times by D/4 hands the
      interpolator 0.25, 0.5, 0.75 and 1, and completes on the fourth call only. */
  lemma QuarterSteps(duration: real)
    requires duration > 0.0
    ensures var q := duration / 4.0;
            var r := Run(0.0, duration, [q, q, q, q]);
            && [r[0].progress, r[1].progress, r[2].progress, r[3].progress] == [0.25, 0.5, 0.75, 1.0]
            && [r[0].completed, r[1].completed, r[2].completed, r[3].completed] == [false, false, false, true]
            && r[3].elapsed == -1.0
  {
    var q := duration / 4.0;
    var dts := [q, q, q, q];
    assert q + q == duration / 2.0 && q + q + q == 3.0 * duration / 4.0;
    assert (duration / 2.0) / duration == 0.5;
    assert (3.0 * duration / 4.0) / duration == 0.75;
    assert q / duration == 0.25;
    var s0 := Step(0.0, duration, q);
    assert s0 == StepResult(q, 0.25, false);
    var s1 := Step(s0.elapsed, duration, q);
    assert s1 == StepResult(q + q, 0.5, false);
    var s2 := Step(s1.elapsed, duration, q);
    assert s2 == StepResult(q + q + q, 0.75, false);
    var s3 := Step(s2.elapsed, duration, q);
    assert s3 == StepResult(-1.0, 1.0, true);
    assert Run(s2.elapsed, duration, [q]) == [s3] by {
      assert [q][1..] == [];
    }
    assert Run(s1.elapsed, duration, [q, q]) == [s2, s3] by {
      assert [q, q][1..] == [q];
    }
    assert Run(s0.elapsed, duration, [q, q, q]) == [s1, s2, s3] by {
      assert [q, q, q][1..] == [q, q];
    }
    assert Run(0.0, duration, dts) == [s0, s1, s2, s3] by {
      assert dts[1..] == [q, q, q];
    }
  }

  /** The scene does not reset an animation when it activates it, so an animation
      played again starts from the -1 its completion left behind: it completes
      on the first frame at which the accumulated frame time reaches its duration
      plus one second. */
  lemma ReplayLastsOneSecondLonger(duration: real, dts: seq<real>, i: nat)
    requires i < |dts|
    requires forall n :: 1 <= n <= i ==> Accumulated(dts, n) < duration + 1.0
    ensures Run(-1.0, duration, dts)[i].completed <==> Accumulated(dts, i + 1) >= duration + 1.0
    ensures forall j :: 0 <= j < i ==> !Run(-1.0, duration, dts)[j].completed
  {
    RunUntilDone(-1.0, duration, dts, i);
  }

  /** A zero-duration animation, such as disappear, completes on its first call
      for any frame time when fresh, but after a previous completion only once
      the frame time is at least one second. */
  lemma ZeroDurationCompletion(dt: real)
    ensures dt >= 0.0 ==> Step(0.0, 0.0, dt).completed && Step(0.0, 0.0, dt).progress == 1.0
    ensures Step(-1.0, 0.0, dt).completed <==> dt >= 1.0
  {
  }
}
