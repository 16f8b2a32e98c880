/** The about screen: a framed page of credits and links, closed with Circle. */
module About {
  import opened Window

  /** What one frame of pad input asks of the window manager: Circle closes
      this window, whatever state it is in; nothing else does anything. */
  function CloseOnCircle(id: int, pad: PadData): (r: Request)
    ensures r == Close(id) <==> pad.circle
    ensures !pad.circle ==> r == NoRequest
  {
    if pad.circle then Close(id) else NoRequest
  }

  /** The constructor builds the window frame and label pairs only when the
      renderer, the window manager and its locale are all present. */
  function ElementsBuilt(hasMini: bool, hasManager: bool, localeLoaded: bool): bool {
    hasMini && hasManager && localeLoaded
  }

  /** The test Draw makes as written: background texture, window manager,
      locale and font. It does not look at whether the elements were built. */
  function GuardAsWritten(res: Resources, hasManager: bool): bool {
    res.background && hasManager && res.locale && res.font
  }

  /** The guard as written lets Draw through for a menu constructed while
      the locale was still missing — then loaded before the first frame —
      although that menu never built the window frame Draw paints first. */
  lemma GuardAdmitsUnbuiltElements()
    ensures var hasMini, hasManager, localeAtConstruction := true, true, false;
      !ElementsBuilt(hasMini, hasManager, localeAtConstruction) &&
      GuardAsWritten(Resources(true, true, true), hasManager)
  {
  }

  /** The contributors Draw prints, one line each: every name before the
      first empty-string sentinel, in list order. */
  method ContributorNames(contributors: seq<string>) returns (names: seq<string>)
    requires "" in contributors
    ensures |names| < |contributors| && contributors[|names|] == ""
    ensures names == contributors[..|names|]
    ensures "" !in names
  {
    var x := 0;
    names := [];
    while contributors[x] != ""
      invariant 0 <= x < |contributors|
      invariant "" in contributors[x..]
      invariant names == contributors[..x]
      invariant "" !in names
      decreases |contributors| - x
    {
      names := names + [contributors[x]];
      x := x + 1;
      assert contributors[x - 1..] == [contributors[x - 1]] + contributors[x..];
    }
  }

  class AboutMenu {
    /** Whether the window manager pointer handed to the constructor was set. */
    const hasManager: bool
    /** Whether the constructor got past its guard and built its elements. */
    const elementsBuilt: bool

    var state: WindowState
    var animationTime: real
    var id: int
    var previousId: int

    /** A new about menu is Inactive, unregistered (id -1), with a cleared
        timer; without the renderer, the window manager or its locale it
        skips building its elements. */
    constructor (hasMini: bool, hasManager: bool, localeLoaded: bool, prevId: int)
      ensures state == Inactive && id == -1 && previousId == prevId && animationTime == 0.0
      ensures this.hasManager == hasManager
      ensures elementsBuilt == ElementsBuilt(hasMini, hasManager, localeLoaded)
    {
      this.hasManager := hasManager;
      elementsBuilt := hasMini && hasManager && localeLoaded;
      state := Inactive;
      id := -1;
      previousId := prevId;
      animationTime := 0.0;
    }

    function State(): WindowState
      reads this
    {
      state
    }

    method SetState(newState: WindowState)
      modifies this`state
      ensures State() == newState
    {
      state := newState;
    }

    function Id(): int
      reads this
    {
      id
    }

    method SetId(newId: int)
      modifies this`id
      ensures Id() == newId
    {
      id := newId;
    }

    function PreviousId(): int
      reads this
    {
      previousId
    }

    method SetPreviousId(newPreviousId: int)
      modifies this`previousId
      ensures PreviousId() == newPreviousId
    {
      previousId := newPreviousId;
    }

    /** The corrected guard: the one written, plus the elements Draw paints. */
    predicate DrawReady(res: Resources)
      reads this
    {
      elementsBuilt && GuardAsWritten(res, hasManager)
    }

    /** One frame: when anything Draw needs is missing nothing changes and
        nothing is drawn; otherwise the state and timer take one step of the
        shared fade, the frame is drawn with its alpha and the contributors
        before the sentinel are printed in order. Every early return of the
        written guard is kept, and nothing is drawn on elements the
        constructor never built. */
    method Draw(deltaTime: real, res: Resources, contributors: seq<string>)
      returns (alpha: Option<Alpha>, printed: seq<string>)
      requires "" in contributors
      modifies this`state, this`animationTime
      ensures !GuardAsWritten(res, hasManager) ==>
        alpha == None && printed == [] && state == old(state) && animationTime == old(animationTime)
      ensures alpha.Some? ==> elementsBuilt
      ensures !DrawReady(res) ==>
        alpha == None && printed == [] && state == old(state) && animationTime == old(animationTime)
      ensures DrawReady(res) ==>
        var f := Animate(old(state), old(animationTime), deltaTime);
        alpha == Some(f.alpha) && state == f.state && animationTime == f.time
      ensures DrawReady(res) ==>
        |printed| < |contributors| && contributors[|printed|] == "" &&
        printed == contributors[..|printed|] && "" !in printed
    {
      printed := [];
      if !DrawReady(res) {
        return None, printed;
      }
      var a: Alpha;
      match state {
        case Opening =>
          a := Ramp(animationTime);
          animationTime := animationTime + deltaTime;
          if animationTime > MenuAnimationDuration {
            SetState(Active);
          }
        case Closing =>
          a := Ramp(MenuAnimationDuration - animationTime);
          animationTime := animationTime + deltaTime;
          if animationTime > MenuAnimationDuration {
            SetState(Inactive);
          }
        case Active =>
          animationTime := 0.0;
          a := Opaque;
        case Inactive =>
          animationTime := 0.0;
          a := Opaque;
      }
      alpha := Some(a);
      printed := ContributorNames(contributors);
    }

    /** One frame of pad input: Circle asks the window manager to close this
        window. */
    method Pad(port: int, pad: PadData) returns (request: Request)
      ensures request == CloseOnCircle(id, pad)
    {
      request := NoRequest;
      if pad.circle {
        request := Close(Id());
      }
    }

    /** The about screen replaces whatever was shown before it. */
    function IsSubmenu(): (overlay: bool)
      ensures !overlay
    {
      false
    }
  }
}
