# Menu lifecycle and input model for Artemis PS3 Lite

This project models two of the on-screen menus of Artemis PS3 Lite: the
start screen (`StartMenu`) and the about screen (`AboutMenu`). Each menu is a
window that a window manager registers, opens and closes. Each menu keeps
its own lifecycle state (Inactive, Opening, Active, Closing), an animation
timer, its id and the id of the window it was opened from. The start screen
also keeps a cursor over its four icons.

Two operations change that state frame by frame:

- `Draw(deltaTime)` runs the timed fade. A fading window draws with the alpha
  for its current timer, adds the frame's delta, and moves on to the next
  state once the timer is strictly past `MENU_ANIMATION_DURATION`. A settled
  window clears its timer and draws fully opaque. When a resource it needs
  is missing, it returns without touching anything.
- `Pad(port, padData)` turns one frame of button flags into an effect. On the
  start screen, Left and Right move the cursor with wrap-around. Cross, while
  Active, asks the manager to open a game list (icon 1) or the about screen
  (icon 3). On the about screen, Circle asks the manager to close the window.

Layout of the model:

- `window.dfy`, module `Window`: states, pad flags, manager requests, and
  `MenuAnimationDuration`, an abstract positive constant. It also holds
  `Animate`, the one state/timer/alpha step that both menus' `Draw` perform,
  and `Replay`, a run of such steps.
- `animation.dfy`, module `AnimationProofs`: what runs of `Draw` calls do over
  many frames.
- `start_menu.dfy`, module `Start`: the cursor and confirm logic as functions,
  the wrap-around lemmas, and class `StartMenu`.
- `about_menu.dfy`, module `About`: the close request, the contributors loop,
  the draw guard, and class `AboutMenu`.

Each class keeps the source's fields and updates them in place. `Draw` and
`Pad` are proved against the pure functions `Animate`, `Scroll`, `Navigation`
and `CloseOnCircle`. The lemmas about those functions carry the properties.

Calls into the window manager are returned as a `Request` value:
`AddAndOpen(kind, previousId)` stands for `OpenWindow(AddWindow(new …))`, and
`Close(id)` stands for `CloseWindow(id)`. `ANI_TIME_TO_A` is not defined in
the modelled files. A frame's alpha is therefore returned as `Opaque` (0xFF)
or as `Ramp(x)`, which stands for `ANI_TIME_TO_A(x, MENU_ANIMATION_DURATION)`.
Presence of the background texture, the locale and the font is a `Resources`
argument of `Draw`. Presence of the renderer and of the window manager is a
constructor argument.

Two behaviours of the code that a reader might not expect, and that the model follows:

- A settled Inactive window draws with alpha 0xFF, not 0.
- `Pad` has no readiness guard in either menu, so it acts even when
  resources are missing.

## Model

| member | source | states |
|---|---|---|
| `Window.Animate` | gui/source/StartMenu.cpp:153-172 | One Draw step never skips a state: Opening can only become Active, Closing only Inactive, and Active and Inactive never move. A state changes exactly when a fading window's timer plus the delta is strictly past the duration. Settled windows clear the timer and use alpha 0xFF. Fading windows take alpha from the timer before the frame (duration minus the timer when Closing), then grow the timer by the delta. With a non-negative delta the timer invariant is kept and the ramp argument stays within [0, duration]. |
| `Window.Replay` | gui/source/StartMenu.cpp:142-172 | A run of Draw calls with nothing else touching the window yields exactly one frame per delta. Replay is a definition; what a run does is stated by the `AnimationProofs` lemmas. |
| `AnimationProofs.ReplaySettled` | gui/source/StartMenu.cpp:167-171 | Drawn any number of times, an Active or Inactive window keeps its state, a zero timer and alpha 0xFF. |
| `AnimationProofs.ReplayNeverSkips` | gui/source/StartMenu.cpp:153-172 | Over any run of Draw calls, every frame keeps the state or takes one lifecycle step out of a fading state. The run never leaves the start state and its successor. |
| `AnimationProofs.ReplayKeepsTimerInv` | gui/source/StartMenu.cpp:155-166 | With non-negative deltas the timer stays non-negative, stays within the duration while fading, and every ramp argument lies in [0, duration]. |
| `AnimationProofs.OpeningFadesIn` | gui/source/StartMenu.cpp:155-159 | From Opening with non-negative deltas, the `ANI_TIME_TO_A` argument never falls from one frame to the next, and any frame may be followed by 0xFF, as after the switch to Active. |
| `AnimationProofs.ClosingFadesOut` | gui/source/StartMenu.cpp:161-165 | From Closing with non-negative deltas, while the window is still Closing, each next frame's ramp argument is no greater than the current one. |
| `AnimationProofs.TransitionCompletes` | gui/source/StartMenu.cpp:158-165 | A fading window fed non-negative deltas ends in the next state exactly when its timer plus the sum of the deltas is strictly past the duration. Otherwise it is still fading, with exactly that sum on its timer. |
| `Start.Scroll` | gui/source/StartMenu.cpp:225-236 | A cursor on one of the four icons stays on one. Left alone moves to (i+3) mod 4 and Right alone to (i+1) mod 4. Both held, or neither, leaves the cursor unchanged. |
| `Start.Navigation` | gui/source/StartMenu.cpp:237-247 | A request is issued exactly when no Left-only or Right-only move fired, Cross is held, the window is Active and the cursor is on icon 1 or 3. Icon 1 opens a game list and icon 3 an about screen, each with this window's id as previous id. No close request is ever issued. |
| `Start.LeftWrapsAround` | gui/source/StartMenu.cpp:225-230 | k Left-only frames move the cursor to (i-k) mod 4, so four presses return it to where it started. |
| `Start.RightWrapsAround` | gui/source/StartMenu.cpp:231-236 | k Right-only frames move the cursor to (i+k) mod 4, so from 3 one press wraps to 0. |
| `Start.StartMenu.constructor` | gui/source/StartMenu.cpp:21-31 | A new start menu is Inactive with id -1, timer 0, cursor 0 and the given previous id. It creates its icons only with both renderer and manager present. |
| `Start.StartMenu.SetState` | gui/source/StartMenu.cpp:109-117 | The state getter returns what the setter stored. |
| `Start.StartMenu.SetId` | gui/source/StartMenu.cpp:119-127 | The id getter returns what the setter stored. |
| `Start.StartMenu.SetPreviousId` | gui/source/StartMenu.cpp:129-137 | The previous-id getter returns what the setter stored. |
| `Start.StartMenu.Draw` | gui/source/StartMenu.cpp:142-172 | Without the background texture, the icons, the manager, the locale or the font, nothing changes and nothing is drawn. Otherwise state, timer and alpha are exactly one `Animate` step. |
| `Start.StartMenu.Pad` | gui/source/StartMenu.cpp:221-249 | The cursor becomes `Scroll` of its old value, the request is `Navigation` of the old cursor, state and id, and the cursor stays on one of the four icons. |
| `Start.StartMenu.IsSubmenu` | gui/source/StartMenu.cpp:254-257 | The start screen is never drawn over its previous window. |
| `About.CloseOnCircle` | gui/source/AboutMenu.cpp:188-193 | Circle yields exactly one close request for this window's own id, whatever its state. Without Circle there is no request. |
| `About.GuardAdmitsUnbuiltElements` | gui/source/AboutMenu.cpp:132-133 | A menu built while the locale was missing fails the constructor's guard, yet passes Draw's guard as written once the locale, font and texture are present. |
| `About.ContributorNames` | gui/source/AboutMenu.cpp:171-182 | The printed names are exactly the entries before the first empty-string sentinel, in list order, and none of them is empty. |
| `About.AboutMenu.constructor` | gui/source/AboutMenu.cpp:21-31 | A new about menu is Inactive with id -1, timer 0 and the given previous id. It builds its elements only with renderer, manager and locale all present. |
| `About.AboutMenu.SetState` | gui/source/AboutMenu.cpp:93-101 | The state getter returns what the setter stored. |
| `About.AboutMenu.SetId` | gui/source/AboutMenu.cpp:103-111 | The id getter returns what the setter stored. |
| `About.AboutMenu.SetPreviousId` | gui/source/AboutMenu.cpp:113-121 | The previous-id getter returns what the setter stored. |
| `About.AboutMenu.Draw` | gui/source/AboutMenu.cpp:126-183 | Whenever the written guard of lines 132-133 fails, nothing changes and nothing is drawn or printed; the corrected guard also returns early when the constructor never built its elements, so nothing is drawn on unbuilt elements. When the corrected guard passes, state, timer and alpha are exactly one `Animate` step, and the printed contributors are those before the sentinel, in order. |
| `About.AboutMenu.Pad` | gui/source/AboutMenu.cpp:188-193 | The request is `CloseOnCircle` for this window's id. |
| `About.AboutMenu.IsSubmenu` | gui/source/AboutMenu.cpp:198-201 | The about screen is never drawn over its previous window. |

## Left out

- The window manager (`AddWindow`, `OpenWindow`, `CloseWindow`, focus, draw chain) is not part of this model. Its calls appear only as the `Request` a `Pad` returns, and nothing is stated about ordering, focus or removal.
- Rendering and layout are not modelled: texture and font drawing, `LOC_TO_SCREEN`/`DIM_TO_SCREEN`, the vector coordinates, and the contributors' vertical offsets. These are calls into a rendering library and floating-point geometry.
- The per-icon colour `(a / 255.0) * MENU_SELECTED` is not modelled. It is floating-point arithmetic over constants defined outside the modelled files.
- `MENU_ANIMATION_DURATION` is an abstract positive constant. `ANI_TIME_TO_A`, `MENU_SELECTED` and the `TEX_*` globals are not part of this model either.
- The timer and `deltaTime` are `real`, not IEEE `float`, so rounding is not modelled.
- Locale lookups, UTF-8 conversion and pad-bit decoding are foreign collaborators. Only the presence of the locale and the four flags Left, Right, Cross and Circle are modelled. The `port` argument is accepted and, as in the source, ignored.
- Heap allocation, destructors and pointer validity are not modelled. This covers the start menu's destructor deleting `_iconXmb` a second time in its `_iconCht` branch, and the icon pointers left unset when the constructor returns early. The model treats icons that were never created as absent.
- The start menu's constructor calls the locale without checking that it exists. The model does not model that failure.
- `Pad` in either menu calls the window manager without checking that it exists. The model returns the request regardless.
- Ids are unbounded integers. The source stores them as `long` and does no arithmetic on them, so width does not matter.
- AnimationProofs.OpeningFadesIn: states that the argument passed to `ANI_TIME_TO_A` never falls, not the alpha byte itself. The function's definition is not part of this model; the byte follows only if that function grows with its argument.
- AnimationProofs.ClosingFadesOut: states that the argument passed to `ANI_TIME_TO_A` never rises while Closing, not the alpha byte itself, for the same reason. After the switch to Inactive the source draws at 0xFF.
- `Draw` in both menus returns early when a resource is missing; neither menu's `Pad` has such a guard. The model follows the code.
- About.AboutMenu.Draw: uses the corrected guard (the guard of lines 132-133 plus the constructor having built its elements, which also requires the renderer) instead of the guard as written. On a menu whose elements were never built, the source passes line 132, runs the state/timer switch and then dereferences the unset `_windowFrame` at line 159; the model instead returns without drawing and leaves state and timer unchanged. Every early return of the written guard is kept.

## Findings

| source | as written | input that shows it | evidently intended | confidence | as-written member | corrected member |
|---|---|---|---|---|---|---|
| gui/source/AboutMenu.cpp:132-133 | Draw returns early only when the background texture, window manager, locale or font is missing. It never checks that the constructor built `_windowFrame` and the label pairs. | Construct the about menu with a renderer and a window manager but before the locale has loaded: the constructor returns at line 30-31 without building its elements. Then call Draw with texture, locale and font present: line 159 calls `_windowFrame->Draw` on a pointer the constructor never set. | Draw also returns early when the constructor did not build its elements, as the start menu's Draw does for its icons. | not executed; the guard and the early constructor return are both in the file | `About.GuardAdmitsUnbuiltElements` | `About.AboutMenu.Draw` |
