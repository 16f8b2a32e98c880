/** Vocabulary shared by every concrete menu: the window lifecycle states, the
    pad flags a menu reacts to, the requests a menu hands back to its window
    manager, and the timed fade that every menu's Draw runs through. */
module Window {

  /** The four lifecycle states of a window. */
  datatype WindowState = Inactive | Opening | Active | Closing {

    /** Opening and Closing are the two fading states that run the timer. */
    predicate Transitional() {
      this == Opening || this == Closing
    }

    /** The lifecycle order Inactive -> Opening -> Active -> Closing -> Inactive. */
    function Next(): WindowState {
      match this
      case Inactive => Opening
      case Opening => Active
      case Active => Closing
      case Closing => Inactive
    }
  }

  type Positive = r: real | r > 0.0 witness 1.0

  /** MENU_ANIMATION_DURATION: its value lives in a header outside this model,
      so it is left abstract; only its positivity is relied on. */
  const MenuAnimationDuration: Positive

  /** The alpha byte a frame is drawn with. `Opaque` is 0xFF; `Ramp(x)` is
      ANI_TIME_TO_A(x, MENU_ANIMATION_DURATION), whose definition is outside
      this model and so is named by its argument only. */
  datatype Alpha = Opaque | Ramp(elapsed: real)

  /** One frame of the fade: the state and timer after the frame, and the
      alpha the frame was drawn with. */
  datatype Frame = Frame(state: WindowState, time: real, alpha: Alpha)

  datatype Option<T> = None | Some(value: T)

  /** The pad flags the menus read; the port number and the other buttons
      play no part in them. */
  datatype PadData = PadData(left: bool, right: bool, cross: bool, circle: bool)

  /** Which external resources are present during one Draw call: the global
      background texture, and the window manager's locale and font. */
  datatype Resources = Resources(background: bool, locale: bool, font: bool)

  /** The concrete menus a menu can ask its manager to create. */
  datatype MenuKind = GameList | About

  /** What a menu asks of its window manager in one Pad call. */
  datatype Request =
    | NoRequest
    | AddAndOpen(kind: MenuKind, previousId: int)  // AddWindow(new kind(.., previousId)) then OpenWindow
    | Close(id: int)                               // CloseWindow(id)

  /** One Draw call's effect on the state: none, or one lifecycle step out
      of a fading state. */
  predicate DrawStep(before: WindowState, after: WindowState) {
    after == before || (before.Transitional() && after == before.Next())
  }

  /** The timer is never negative, and while the window fades it has not yet
      run past the duration. */
  ghost predicate TimerInv(state: WindowState, time: real) {
    0.0 <= time && (state.Transitional() ==> time <= MenuAnimationDuration)
  }

  /** The state/timer switch every menu's Draw performs once its resources
      are present: a fading window draws with the alpha of the time it had
      before this frame, then adds the frame's delta and moves on to the next
      lifecycle state once the timer has run strictly past the duration; a
      settled window clears its timer and draws fully opaque. */
  function Animate(state: WindowState, time: real, delta: real): (f: Frame)
    // Draw never skips a state and never moves a settled window
    ensures DrawStep(state, f.state)
    ensures f.state != state <==> state.Transitional() && time + delta > MenuAnimationDuration
    // settled windows: timer cleared, alpha 0xFF
    ensures !state.Transitional() ==> f.time == 0.0 && f.alpha == Opaque
    // fading windows: alpha from the time before the frame, then the timer grows by delta
    ensures state.Transitional() ==> f.time == time + delta
    ensures state == Opening ==> f.alpha == Ramp(time)
    ensures state == Closing ==> f.alpha == Ramp(MenuAnimationDuration - time)
    // with a non-negative delta the timer invariant is kept and the ramp stays within [0, duration]
    ensures TimerInv(state, time) && delta >= 0.0 ==>
      TimerInv(f.state, f.time) && (f.alpha.Ramp? ==> 0.0 <= f.alpha.elapsed <= MenuAnimationDuration)
  {
    match state
    case Opening =>
      var t := time + delta;
      Frame(if t > MenuAnimationDuration then Active else Opening, t, Ramp(time))
    case Closing =>
      var t := time + delta;
      Frame(if t > MenuAnimationDuration then Inactive else Closing, t, Ramp(MenuAnimationDuration - time))
    case Active => Frame(Active, 0.0, Opaque)
    case Inactive => Frame(Inactive, 0.0, Opaque)
  }

  /** The frames produced by a run of Draw calls with the given deltas, with
      no other change to the window in between. */
  function Replay(state: WindowState, time: real, deltas: seq<real>): (trace: seq<Frame>)
    ensures |trace| == |deltas|
    decreases |deltas|
  {
    if deltas == [] then []
    else
      var f := Animate(state, time, deltas[0]);
      [f] + Replay(f.state, f.time, deltas[1..])
  }

  /** The state a window is in just before frame `i` of a replay. */
  function Before(state: WindowState, trace: seq<Frame>, i: nat): WindowState
    requires i <= |trace|
  {
    if i == 0 then state else trace[i - 1].state
  }

  /** Total time fed to a run of Draw calls. */
  function Sum(deltas: seq<real>): real
    decreases |deltas|
  {
    if deltas == [] then 0.0 else deltas[0] + Sum(deltas[1..])
  }

  ghost predicate NonNegative(deltas: seq<real>) {
    forall i :: 0 <= i < |deltas| ==> deltas[i] >= 0.0
  }
}
