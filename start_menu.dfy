/** The start screen: four icons (launch, cheats, options, about) with a
    cursor moved by Left and Right, and Cross to open the chosen screen. */
module Start {
  import opened Window

  /** Number of icons the cursor moves over. */
  const IconCount := 4

  predicate LeftOnly(pad: PadData) { pad.left && !pad.right }
  predicate RightOnly(pad: PadData) { pad.right && !pad.left }

  /** Where one frame of pad input leaves the cursor: Left alone steps back
      and Right alone steps forward, each wrapping around the four icons;
      any other combination, both directions held included, leaves it. */
  function Scroll(index: int, pad: PadData): (next: int)
    ensures 0 <= index < IconCount ==> 0 <= next < IconCount
    ensures 0 <= index < IconCount && LeftOnly(pad) ==> next == (index + IconCount - 1) % IconCount
    ensures 0 <= index < IconCount && RightOnly(pad) ==> next == (index + 1) % IconCount
    ensures !LeftOnly(pad) && !RightOnly(pad) ==> next == index
  {
    if LeftOnly(pad) then
      var i := index - 1;
      if i < 0 then 3 else i
    else if RightOnly(pad) then
      var i := index + 1;
      if i > 3 then 0 else i
    else index
  }

  /** What one frame of pad input asks of the window manager. Cross is the
      last branch of the else-if chain, so a Left-only or Right-only frame
      never confirms; it is honoured only while the window is Active, and
      only the cheats icon (1, a game list) and the about icon (3) lead
      anywhere, each new window recording this window's id as its previous. */
  function Navigation(index: int, state: WindowState, id: int, pad: PadData): (r: Request)
    ensures !r.Close?
    ensures r != NoRequest <==>
      !LeftOnly(pad) && !RightOnly(pad) && pad.cross && state == Active && (index == 1 || index == 3)
    ensures r.AddAndOpen? ==>
      r.previousId == id && r.kind == (if index == 1 then GameList else About)
  {
    if LeftOnly(pad) || RightOnly(pad) then NoRequest
    else if pad.cross && state == Active then
      if index == 1 then AddAndOpen(GameList, id)
      else if index == 3 then AddAndOpen(About, id)
      else NoRequest
    else NoRequest
  }

  /** The cursor after `frames` identical frames of pad input. */
  function ScrollRepeated(index: int, pad: PadData, frames: nat): int
    decreases frames
  {
    if frames == 0 then index else ScrollRepeated(Scroll(index, pad), pad, frames - 1)
  }

  /** Holding Left alone for k frames moves the cursor back k places modulo
      four; in particular four presses bring it back where it started. */
  lemma {:induction false} LeftWrapsAround(index: int, pad: PadData, frames: nat)
    requires 0 <= index < IconCount && LeftOnly(pad)
    ensures ScrollRepeated(index, pad, frames) == (index - frames) % IconCount
    ensures frames % IconCount == 0 ==> ScrollRepeated(index, pad, frames) == index
    decreases frames
  {
    if frames > 0 {
      var next := Scroll(index, pad);
      LeftWrapsAround(next, pad, frames - 1);
      assert next == (index + 3) % 4;
      assert (next - (frames - 1)) % 4 == (index - frames) % 4 by {
        if index == 0 {
          assert next - (frames - 1) == (index - frames) + 4;
        } else {
          assert next - (frames - 1) == index - frames;
        }
      }
    }
  }

  /** Holding Right alone for k frames moves the cursor forward k places
      modulo four. */
  lemma {:induction false} RightWrapsAround(index: int, pad: PadData, frames: nat)
    requires 0 <= index < IconCount && RightOnly(pad)
    ensures ScrollRepeated(index, pad, frames) == (index + frames) % IconCount
    ensures frames % IconCount == 0 ==> ScrollRepeated(index, pad, frames) == index
    decreases frames
  {
    if frames > 0 {
      var next := Scroll(index, pad);
      RightWrapsAround(next, pad, frames - 1);
      assert (next + (frames - 1)) % 4 == (index + frames) % 4 by {
        if index == 3 {
          assert next + (frames - 1) == (index + frames) - 4;
        } else {
          assert next + (frames - 1) == index + frames;
        }
      }
    }
  }

  class StartMenu {
    /** Whether the window manager pointer handed to the constructor was set. */
    const hasManager: bool
    /** Whether the constructor got past its guard and created the four icons. */
    const iconsCreated: bool

    var state: WindowState
    var animationTime: real
    var selectedIndex: int
    var id: int
    var previousId: int

    /** The cursor is always on one of the four icons. */
    ghost predicate Valid()
      reads this
    {
      0 <= selectedIndex < IconCount
    }

    /** A new start menu is Inactive, unregistered (id -1), with a cleared
        timer and the cursor on the first icon; without the renderer or the
        window manager it skips creating its icons. */
    constructor (hasMini: bool, hasManager: bool, prevId: int)
      ensures Valid()
      ensures state == Inactive && id == -1 && previousId == prevId
      ensures animationTime == 0.0 && selectedIndex == 0
      ensures this.hasManager == hasManager && iconsCreated == (hasMini && hasManager)
    {
      this.hasManager := hasManager;
      iconsCreated := hasMini && hasManager;
      state := Inactive;
      id := -1;
      previousId := prevId;
      animationTime := 0.0;
      selectedIndex := 0;
    }

    function State(): WindowState
      reads this
    {
      state
    }

    method SetState(newState: WindowState)
      modifies this`state
      ensures State() == newState
    {
      state := newState;
    }

    function Id(): int
      reads this
    {
      id
    }

    method SetId(newId: int)
      modifies this`id
      ensures Id() == newId
    {
      id := newId;
    }

    function PreviousId(): int
      reads this
    {
      previousId
    }

    method SetPreviousId(newPreviousId: int)
      modifies this`previousId
      ensures PreviousId() == newPreviousId
    {
      previousId := newPreviousId;
    }

    /** Draw goes ahead only with the background texture, all four icons,
        the window manager, its locale and its font present. */
    predicate DrawReady(res: Resources)
      reads this
    {
      res.background && iconsCreated && hasManager && res.locale && res.font
    }

    /** One frame: when anything Draw needs is missing nothing changes and
        nothing is drawn; otherwise the state and timer take one step of the
        shared fade and the frame is drawn with its alpha. */
    method Draw(deltaTime: real, res: Resources) returns (alpha: Option<Alpha>)
      modifies this`state, this`animationTime
      ensures !DrawReady(res) ==>
        alpha == None && state == old(state) && animationTime == old(animationTime)
      ensures DrawReady(res) ==>
        var f := Animate(old(state), old(animationTime), deltaTime);
        alpha == Some(f.alpha) && state == f.state && animationTime == f.time
    {
      if !DrawReady(res) {
        return None;
      }
      var a: Alpha;
      match state {
        case Opening =>
          a := Ramp(animationTime);
          animationTime := animationTime + deltaTime;
          if animationTime > MenuAnimationDuration {
            SetState(Active);
          }
        case Closing =>
          a := Ramp(MenuAnimationDuration - animationTime);
          animationTime := animationTime + deltaTime;
          if animationTime > MenuAnimationDuration {
            SetState(Inactive);
          }
        case Active =>
          animationTime := 0.0;
          a := Opaque;
        case Inactive =>
          animationTime := 0.0;
          a := Opaque;
      }
      alpha := Some(a);
    }

    /** One frame of pad input: moves the cursor and returns what, if
        anything, the window manager is asked to open. The cursor stays on
        one of the four icons. */
    method Pad(port: int, pad: PadData) returns (request: Request)
      modifies this`selectedIndex
      ensures selectedIndex == Scroll(old(selectedIndex), pad)
      ensures request == Navigation(old(selectedIndex), state, id, pad)
      ensures old(Valid()) ==> Valid()
    {
      request := NoRequest;
      if pad.left && !pad.right {
        selectedIndex := selectedIndex - 1;
        if selectedIndex < 0 {
          selectedIndex := 3;
        }
      } else if pad.right && !pad.left {
        selectedIndex := selectedIndex + 1;
        if selectedIndex > 3 {
          selectedIndex := 0;
        }
      } else if pad.cross && State() == Active {
        if selectedIndex == 1 {
          request := AddAndOpen(GameList, Id());
        } else if selectedIndex == 3 {
          request := AddAndOpen(About, Id());
        }
      }
    }

    /** The start screen replaces whatever was shown before it. */
    function IsSubmenu(): (overlay: bool)
      ensures !overlay
    {
      false
    }
  }
}
