/** The global game clock (TimeManager): an elapsed time that advances by the
    frame delta while running, with start, stop and reset controls. Every
    tick that advances it broadcasts the new elapsed time (OnTick); the
    broadcasts are recorded in `ticks`. */
module Clock {

  class TimeManager {
    /** Start the clock on the scene's first frame. */
    const autoStart: bool
    var elapsed: real
    var running: bool
    /** The values broadcast through OnTick, oldest first. */
    var ticks: seq<real>

    /** With non-negative frame deltas the elapsed time is never negative,
        and every broadcast value is one the clock really reached. */
    ghost predicate Valid()
      reads this
    {
      elapsed >= 0.0 && forall i :: 0 <= i < |ticks| ==> ticks[i] >= 0.0
    }

    constructor (autoStart: bool)
      ensures Valid()
      ensures this.autoStart == autoStart
      ensures elapsed == 0.0 && !running && ticks == []
    {
      this.autoStart := autoStart;
      elapsed, running, ticks := 0.0, false, [];
    }

    /** Unity's Start: begins counting when autoStart is set. */
    method Start()
      requires Valid()
      modifies this
      ensures Valid()
      ensures running == (old(running) || autoStart)
      ensures elapsed == old(elapsed) && ticks == old(ticks)
    {
      if autoStart {
        StartTimer();
      }
    }

    /** One frame of `dt` seconds. A running clock advances by `dt` and
        broadcasts the new value; a stopped clock changes nothing and
        broadcasts nothing. On a running clock one call is one step of
        ElapsedAfter, so a run of calls ends at ElapsedAfter of the run's
        deltas (ElapsedAfterConcat). */
    method Update(dt: real)
      requires Valid() && dt >= 0.0
      modifies this
      ensures Valid()
      ensures running == old(running)
      ensures old(running) ==> elapsed == old(elapsed) + dt && ticks == old(ticks) + [elapsed]
      ensures !old(running) ==> elapsed == old(elapsed) && ticks == old(ticks)
      ensures old(running) ==> elapsed == ElapsedAfter(old(elapsed), [dt])
      ensures elapsed >= old(elapsed)
    {
      if !running {
        return;
      }
      elapsed := elapsed + dt;
      ticks := ticks + [elapsed];
    }

    /** Starts or resumes counting from the current elapsed time. */
    method StartTimer()
      requires Valid()
      modifies this
      ensures Valid()
      ensures running
      ensures elapsed == old(elapsed) && ticks == old(ticks)
    {
      running := true;
    }

    /** Stops counting and keeps the elapsed time; stopping a stopped clock
        changes nothing. */
    method StopTimer()
      requires Valid()
      modifies this
      ensures Valid()
      ensures !running
      ensures elapsed == old(elapsed) && ticks == old(ticks)
      ensures !old(running) ==> unchanged(this)
    {
      running := false;
    }

    /** Sets the elapsed time back to zero without starting or stopping. */
    method ResetTimer()
      requires Valid()
      modifies this
      ensures Valid()
      ensures elapsed == 0.0
      ensures running == old(running) && ticks == old(ticks)
    {
      elapsed := 0.0;
    }

    /** Sets the elapsed time back to zero and starts counting. */
    method ResetAndStart()
      requires Valid()
      modifies this
      ensures Valid()
      ensures elapsed == 0.0 && running
      ensures ticks == old(ticks)
    {
      elapsed := 0.0;
      running := true;
    }
  }

  /** The elapsed time after a run of frames, starting from `elapsed`, while
      the clock keeps running. */
  function ElapsedAfter(elapsed: real, dts: seq<real>): real
    decreases |dts|
  {
    if dts == [] then elapsed else ElapsedAfter(elapsed + dts[0], dts[1..])
  }

  /** Running the frames of `a` and then those of `b` is running the frames
      of `a + b`. */
  lemma {:induction false} ElapsedAfterConcat(elapsed: real, a: seq<real>, b: seq<real>)
    ensures ElapsedAfter(elapsed, a + b) == ElapsedAfter(ElapsedAfter(elapsed, a), b)
    decreases |a|
  {
    if a != [] {
      assert (a + b)[0] == a[0] && (a + b)[1..] == a[1..] + b;
      ElapsedAfterConcat(elapsed + a[0], a[1..], b);
    } else {
      assert a + b == b;
    }
  }

  /** Over any run of non-negative frame deltas the elapsed time never
      decreases, and from a non-negative start it is never negative. */
  lemma {:induction false} ElapsedMonotone(elapsed: real, dts: seq<real>)
    requires forall i :: 0 <= i < |dts| ==> dts[i] >= 0.0
    ensures ElapsedAfter(elapsed, dts) >= elapsed
    ensures elapsed >= 0.0 ==> ElapsedAfter(elapsed, dts) >= 0.0
    decreases |dts|
  {
    if dts != [] {
      assert forall i :: 0 <= i < |dts[1..]| ==> dts[1..][i] == dts[i + 1];
      ElapsedMonotone(elapsed + dts[0], dts[1..]);
    }
  }
}
