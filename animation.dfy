/** Properties of runs of Draw calls: what a window's state, timer and alpha
    do over many frames when nothing else touches it. */
module AnimationProofs {
  import opened Window

  /** Opacity that never decreases from one frame to the next: a ramp is
      followed by a ramp at a later time, and anything may be followed by
      full opacity. (ANI_TIME_TO_A is taken to grow with its first argument
      and to top out at 0xFF.) */
  predicate FadesIn(a: Alpha, b: Alpha) {
    (a.Ramp? && b.Ramp? && a.elapsed <= b.elapsed) || b == Opaque
  }

  ghost predicate SettledThroughout(state: WindowState, trace: seq<Frame>) {
    forall i :: 0 <= i < |trace| ==> trace[i] == Frame(state, 0.0, Opaque)
  }

  ghost predicate StepsOneAtATime(state: WindowState, trace: seq<Frame>) {
    forall i :: 0 <= i < |trace| ==> DrawStep(Before(state, trace, i), trace[i].state)
  }

  ghost predicate StaysInPhase(state: WindowState, trace: seq<Frame>) {
    forall i :: 0 <= i < |trace| ==> DrawStep(state, trace[i].state)
  }

  ghost predicate TimerInvThroughout(trace: seq<Frame>) {
    forall i :: 0 <= i < |trace| ==>
      TimerInv(trace[i].state, trace[i].time) &&
      (trace[i].alpha.Ramp? ==> 0.0 <= trace[i].alpha.elapsed <= MenuAnimationDuration)
  }

  ghost predicate OpacityNeverFalls(trace: seq<Frame>) {
    forall i :: 0 <= i < |trace| - 1 ==> FadesIn(trace[i].alpha, trace[i + 1].alpha)
  }

  /** While the window is still Closing after a frame, the next frame's ramp
      is asked for a time no greater than this frame's. */
  ghost predicate RampFallsWhileClosing(trace: seq<Frame>) {
    forall i :: 0 <= i < |trace| - 1 && trace[i].state == Closing ==>
      trace[i].alpha.Ramp? && trace[i + 1].alpha.Ramp? &&
      trace[i + 1].alpha.elapsed <= trace[i].alpha.elapsed
  }

  function Last(trace: seq<Frame>): Frame
    requires |trace| > 0
  {
    trace[|trace| - 1]
  }

  /** A settled window stays where it is, with a cleared timer and full
      opacity, for as many frames as it is drawn. */
  lemma {:induction false} ReplaySettled(state: WindowState, time: real, deltas: seq<real>)
    requires !state.Transitional()
    ensures SettledThroughout(state, Replay(state, time, deltas))
    decreases |deltas|
  {
    if deltas != [] {
      var f := Animate(state, time, deltas[0]);
      assert Replay(state, time, deltas) == [f] + Replay(f.state, f.time, deltas[1..]);
      ReplaySettled(state, 0.0, deltas[1..]);
    }
  }

  /** Over any run of Draw calls, each frame either keeps the state or takes
      exactly one lifecycle step out of a fading state, and the whole run
      never leaves {state, state.Next()} — Opening reaches only Active,
      Closing only Inactive, and Active and Inactive never move. */
  lemma {:induction false} ReplayNeverSkips(state: WindowState, time: real, deltas: seq<real>)
    ensures StepsOneAtATime(state, Replay(state, time, deltas))
    ensures StaysInPhase(state, Replay(state, time, deltas))
    decreases |deltas|
  {
    if deltas != [] {
      var f := Animate(state, time, deltas[0]);
      var rest := Replay(f.state, f.time, deltas[1..]);
      var trace := Replay(state, time, deltas);
      assert trace == [f] + rest;
      ReplayNeverSkips(f.state, f.time, deltas[1..]);
      if f.state != state {
        ReplaySettled(f.state, f.time, deltas[1..]);
      }
      forall i | 0 <= i < |trace|
        ensures DrawStep(Before(state, trace, i), trace[i].state)
        ensures DrawStep(state, trace[i].state)
      {
        if i == 0 {
          assert trace[0] == f;
        } else {
          assert trace[i] == rest[i - 1];
          assert Before(state, trace, i) == Before(f.state, rest, i - 1) by {
            if i > 1 { assert trace[i - 1] == rest[i - 2]; }
          }
          assert DrawStep(Before(f.state, rest, i - 1), rest[i - 1].state);
          assert DrawStep(f.state, rest[i - 1].state);
        }
      }
    }
  }

  /** Fed non-negative deltas from a state that satisfies the timer
      invariant, every frame of the run satisfies it too, and every ramp is
      asked for a time within [0, duration]. */
  lemma {:induction false} ReplayKeepsTimerInv(state: WindowState, time: real, deltas: seq<real>)
    requires TimerInv(state, time) && NonNegative(deltas)
    ensures TimerInvThroughout(Replay(state, time, deltas))
    decreases |deltas|
  {
    if deltas != [] {
      var f := Animate(state, time, deltas[0]);
      assert deltas[0] >= 0.0;
      assert Replay(state, time, deltas) == [f] + Replay(f.state, f.time, deltas[1..]);
      ReplayKeepsTimerInv(f.state, f.time, deltas[1..]);
    }
  }

  /** An opening window fades in: fed non-negative deltas, the argument
      handed to ANI_TIME_TO_A never decreases from one frame to the next, and
      any frame may be followed by full opacity, as after the switch to
      Active. */
  lemma {:induction false} OpeningFadesIn(time: real, deltas: seq<real>)
    requires NonNegative(deltas)
    ensures OpacityNeverFalls(Replay(Opening, time, deltas))
    decreases |deltas|
  {
    if deltas != [] {
      var f := Animate(Opening, time, deltas[0]);
      var rest := Replay(f.state, f.time, deltas[1..]);
      var trace := Replay(Opening, time, deltas);
      assert trace == [f] + rest;
      assert deltas[0] >= 0.0;
      if f.state == Opening {
        OpeningFadesIn(f.time, deltas[1..]);
      } else {
        ReplaySettled(f.state, f.time, deltas[1..]);
      }
      forall i | 0 <= i < |trace| - 1
        ensures FadesIn(trace[i].alpha, trace[i + 1].alpha)
      {
        assert trace[i + 1] == rest[i];
        if i > 0 { assert trace[i] == rest[i - 1]; }
      }
    }
  }

  /** A closing window fades out: fed non-negative deltas, as long as it is
      still Closing after a frame, the next frame's ramp is asked for a time
      no greater than this frame's (duration minus a growing timer). */
  lemma {:induction false} ClosingFadesOut(time: real, deltas: seq<real>)
    requires NonNegative(deltas)
    ensures RampFallsWhileClosing(Replay(Closing, time, deltas))
    decreases |deltas|
  {
    if deltas != [] {
      var f := Animate(Closing, time, deltas[0]);
      var rest := Replay(f.state, f.time, deltas[1..]);
      var trace := Replay(Closing, time, deltas);
      assert trace == [f] + rest;
      assert deltas[0] >= 0.0;
      if f.state == Closing {
        ClosingFadesOut(f.time, deltas[1..]);
      } else {
        ReplaySettled(f.state, f.time, deltas[1..]);
      }
      forall i | 0 <= i < |trace| - 1 && trace[i].state == Closing
        ensures trace[i].alpha.Ramp? && trace[i + 1].alpha.Ramp? &&
          trace[i + 1].alpha.elapsed <= trace[i].alpha.elapsed
      {
        assert trace[i + 1] == rest[i];
        if i > 0 { assert trace[i] == rest[i - 1]; }
      }
    }
  }

  /** A fading window fed non-negative deltas ends the run in the next
      lifecycle state exactly when its timer plus all the deltas runs
      strictly past the duration; otherwise it is still fading and its timer
      holds exactly that sum. */
  lemma {:induction false} TransitionCompletes(state: WindowState, time: real, deltas: seq<real>)
    requires state.Transitional() && NonNegative(deltas) && |deltas| > 0
    ensures Last(Replay(state, time, deltas)).state == state.Next() <==> time + Sum(deltas) > MenuAnimationDuration
    ensures Last(Replay(state, time, deltas)).state == state ==> Last(Replay(state, time, deltas)).time == time + Sum(deltas)
    decreases |deltas|
  {
    var f := Animate(state, time, deltas[0]);
    var rest := Replay(f.state, f.time, deltas[1..]);
    var trace := Replay(state, time, deltas);
    assert trace == [f] + rest;
    assert deltas[0] >= 0.0;
    if |deltas| == 1 {
      assert deltas[1..] == [];
    } else if f.state == state {
      TransitionCompletes(state, f.time, deltas[1..]);
      assert trace[|deltas| - 1] == rest[|deltas| - 2];
    } else {
      ReplaySettled(f.state, f.time, deltas[1..]);
      SumNonNegative(deltas[1..]);
      assert trace[|deltas| - 1] == rest[|deltas| - 2];
    }
  }

  lemma {:induction false} SumNonNegative(deltas: seq<real>)
    requires NonNegative(deltas)
    ensures Sum(deltas) >= 0.0
    decreases |deltas|
  {
    if deltas != [] {
      assert deltas[0] >= 0.0;
      SumNonNegative(deltas[1..]);
    }
  }
}
