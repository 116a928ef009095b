# PAPlatform Studio and input sampler, modelled in Dafny

PAPlatform is a browser platformer with a built-in sprite-animation editor, the
Studio. This project models three parts of its `script.js`:

- **Input sampler, keyboard half** (`input.dfy`, module `Input`). The keydown and
  keyup handler bodies update two dictionaries, `keys` and `keysPressed`.
  `isDown` reads the level. `isPressed` reports the edge: it is true on the first
  poll of a hold and marks the edge consumed, and only a keyup re-arms it. The
  class `InputState` holds the two dictionaries as `map` fields. It also keeps a
  ghost history of key events. The pure functions `AfterKeyDown`, `AfterKeyUp`
  and `AfterPoll` specify its methods. The class invariant also says that only
  a key that is down can have its edge marked consumed. Lemmas over runs of key
  events and polls prove that a key pressed from up and held through a poll is
  reported exactly once.
- **Viewport** (`viewport.dfy`, module `Viewport`). This is the affine map
  between screen and sprite-sheet pixels: a pan offset plus one uniform scale.
  It is modelled over `real`, so the inverse and zoom-toward-cursor identities
  are exact.
- **Studio frame editor** (`studio.dfy`, module `Studio`). The class
  `StudioSession` holds the working frame, the committed frames (a `seq`), the
  view, the drag mode, the drag offset and the Tab edit mode. Mouse-down picks a
  drag mode by hit-testing in a fixed priority order: anchor handle, then resize
  handle, then frame body, then pan. Mouse-move applies the drag and mouse-up
  ends it. A tick commits the frame on Enter and switches the edit mode on Tab.
  The pure functions `PickGrab`, `DragFrame`, `DragView`, `Advance` and
  `ToggleMode` specify these methods. The lemmas state how drags and commits
  behave.

Modelling choices:
- `Math.hypot(dx, dy) < 15` is written as `dx*dx + dy*dy < 225`.
- `Math.round(v)` is written as `Floor(v + 0.5)`, which rounds halves up.
- A dictionary entry that was never set reads as `undefined`. The predicate
  `Held` treats it as false.
- The field `mode` is not declared in the Studio object literal, so before the
  first Tab it is `undefined`. Here that value is `EditMode.Unset`.
- Canvas width and height, mouse positions and the wheel delta are parameters.

`onMouseDown` computes a grab offset for RESIZE and ANCHOR (script.js:181, 191),
but `onMouseMove` never reads it: it sets `w/h` and `ax/ay` straight from the
cursor's world position minus the frame origin (script.js:236-237, 244-245).
`DragFrame` models this as written. `ResizeGrabMovesCornerLittle` bounds the
resulting jump of the resize corner by the handle radius plus half a pixel of
rounding.

## Model

| member | source | states |
|---|---|---|
| `Input.AfterKeyDown` | script.js:34-35 | keydown sets the key down, leaves every consumed flag alone (a repeat keydown does not re-arm the edge), and changes no other key |
| `Input.AfterKeyUp` | script.js:45-48 | keyup clears both the level and the consumed flag of that key only, so the next keydown makes the edge fire again |
| `Input.AfterPoll` | script.js:83-89 | a poll leaves `keys` unchanged, consumes the edge of a key that is down, leaves other keys' flags alone, and a second poll of the same key cannot fire |
| `Input.KeysFollowLastEvent` | script.js:34-48 | after any run of keydown/keyup events, a key reads as down exactly when its latest event was a keydown |
| `Input.FiresAtMostOncePerHold` | script.js:83-89 | with no keyup of a key, its polls fire at most once, and never if its edge was already consumed |
| `Input.PolledHoldFiresOnce` | script.js:83-89 | a key that is down and unconsumed, held through a run that polls it, fires exactly once |
| `Input.StepKeepsConsistent` | script.js:34-89 | every keydown, keyup and poll keeps a consumed flag only on a key that is down |
| `Input.PressFromUpFires` | script.js:83-85 | from such a state, a keydown of a key that was up makes its next poll fire |
| `Input.HoldFromUpFiresOnce` | script.js:83-89 | from such a state, a keydown of a key that was up followed by a run that polls it without a keyup reports it exactly once |
| `Input.EdgeOncePerHold` | script.js:45-48 | the run keydown, poll, poll, keyup, keydown, poll reports true, false, true |
| `Input.InputState.constructor` | script.js:28-30 | both dictionaries start empty, with an empty event history; no edge is marked consumed |
| `Input.InputState.KeyDown` | script.js:34-35 | the keydown handler body: the new state is `AfterKeyDown` of the old one, and the event is recorded; if the key was up, its next poll fires |
| `Input.InputState.KeyUp` | script.js:45-48 | the keyup handler body: the new state is `AfterKeyUp` of the old one, and the event is recorded |
| `Input.InputState.IsDown` | script.js:82 | `isDown` reads no more than the state and is true exactly when the latest event for the key was a keydown |
| `Input.InputState.IsPressed` | script.js:83-89 | returns true exactly when the key is down and not yet consumed; the new state is `AfterPoll` of the old one |
| `Viewport.ScreenToWorld` | script.js:153-158 | the world point it returns maps back to the given screen point under the forward map used for the handles |
| `Viewport.WorldToScreenInverts` | script.js:175-176 | mapping a world point to the screen and back returns it unchanged |
| `Viewport.Max` | script.js:164 | `Math.max`: the larger of its two arguments |
| `Viewport.ZoomView` | script.js:160-169 | the new scale is the old one plus 0.1 for a negative delta, else minus 0.1, clamped to at least 0.1; the world point under the cursor is the same before and after |
| `Viewport.ZoomInThenOut` | script.js:160-169 | zooming in and then out at the same cursor restores a view whose scale is at least 0.1 |
| `Viewport.ZoomOutThenIn` | script.js:160-169 | zooming out and then in restores the view when the zoom-out was not clamped |
| `Viewport.CenteredView` | script.js:147-151 | a reset puts the sheet's origin at the canvas centre, at scale 2.0 |
| `Studio.Round` | script.js:232-233 | `Math.round`: the integer within half a unit of the argument, with halves rounded up |
| `Studio.PickGrab` | script.js:171-203 | mouse-down never selects NONE; it selects ANCHOR iff the cursor is within 15 px of the anchor, else RESIZE iff within 15 px of the bottom-right corner, else BOX iff the world point is in the closed frame rectangle, else PAN. The handle positions are `WorldToScreen` of `AnchorWorld` and `CornerWorld` (script.js:175-176, 185-186), the `Math.hypot(...) < 15` tests are `WithinHandle` (177-179, 187-189) and the body hit test is `Contains` (195); the grab offset is the cursor's world point relative to the frame origin for BOX (hence inside the frame), the anchor or far corner minus that relative point for ANCHOR and RESIZE, and the cursor minus the pan for PAN |
| `Studio.DragFrame` | script.js:231-246 | each drag mode changes only its own fields (BOX: `x,y`; RESIZE: `w,h`; ANCHOR: `ax,ay`) and NONE/PAN change nothing; BOX puts the origin within half a pixel of cursor minus grab offset; RESIZE leaves `w,h >= 1`, each the rounded cursor offset from the origin or 1 when that offset is below half a pixel; ANCHOR sets the anchor to the rounded cursor offset |
| `Studio.DragView` | script.js:227-230 | only PAN moves the view, keeping its scale and placing its offset at cursor minus grab offset |
| `Studio.PanKeepsGrabbedPoint` | script.js:201-229 | during a pan, the world point grabbed at mouse-down stays under the cursor |
| `Studio.BoxFollowsCursor` | script.js:195-233 | a box drag moves the frame by the rounded world displacement of the cursor since mouse-down; a move back to the grab point leaves the frame where it was |
| `Studio.ResizeGrabMovesCornerLittle` | script.js:185-241 | grabbing the resize handle and moving to the same point changes `w` and `h` by less than the 15 px radius (in screen pixels) plus half a pixel of rounding |
| `Studio.Advance` | script.js:254 | after a commit the working frame moves right by its own width, with nothing else changed |
| `Studio.CommitLayout` | script.js:251-254 | after k commits the sequence has grown by exactly k, earlier entries are untouched, and entry i of the new ones is the starting frame shifted right by i widths |
| `Studio.ToggleMode` | script.js:262-263 | Tab turns BOX into ANCHOR and anything else (ANCHOR or the unset initial value) into BOX |
| `Studio.StudioSession.constructor` | script.js:133-139 | the initial session: inactive, no frames, frame (0,0,32,32,16,32), view (0,0,2.0), drag NONE |
| `Studio.StudioSession.Toggle` | script.js:141-145 | flips the active flag and nothing else |
| `Studio.StudioSession.ResetView` | script.js:147-151 | sets the view to `CenteredView` of the canvas size and keeps the scale invariant |
| `Studio.StudioSession.Zoom` | script.js:160-169 | sets the view to `ZoomView` of the old view; the scale stays at least 0.1 and the cursor's world point is unchanged |
| `Studio.StudioSession.OnMouseDown` | script.js:171-203 | sets drag mode and offset to `PickGrab` of the current view and frame; the mode is one of ANCHOR, RESIZE, BOX, PAN; the frame and view are untouched (they are outside its modifies frame) |
| `Studio.StudioSession.OnMouseUp` | script.js:205-207 | the drag mode becomes NONE and nothing else changes |
| `Studio.StudioSession.OnMouseMove` | script.js:209-247 | the view becomes `DragView` and the frame `DragFrame` of the old state; the invariant (scale at least 0.1, `w,h >= 1`) is kept |
| `Studio.StudioSession.Update` | script.js:249-266 | inactive: nothing changes. Active: Enter, KeyF and Tab are polled in that order. If Enter fires, exactly one copy of the old working frame is appended and the working frame is advanced by its width. If Tab fires, the edit mode toggles |

## Left out

- Canvas drawing (`Studio.draw`, `Studio.drawGrid`) and the hover cursor styling in `onMouseMove`. These are display side effects only.
- The `Resources` module (image loading, `FileReader`, DOM events). This is asynchronous I/O. Only its effect on the Studio, `resetView`, is modelled, as a method that takes the canvas size as parameters.
- Event-listener registration, `preventDefault`, the `getBoundingClientRect` offsets and the `Studio.active` checks in the mouse and wheel listeners. The mouse record `Input.mouse` (position, down flag, down origin) is left out with them. The model's mouse methods receive canvas coordinates directly.
- The F1 key calls `App.toggleStudio`. `App` is not part of this model.
- The KeyF export (`JSON.stringify` into a text area), the frame counter text, the mode indicator text and the log calls in `Studio.update`. These are writes to DOM collaborators. The KeyF poll itself is modelled, because it consumes the key's edge.
- `Game` (physics, collision, coyote time and jump buffer, animation states, camera, sprite definitions, platforms) is outside the modelled core.
- JavaScript numbers are doubles. The model uses exact `real` and `int`, so floating-point rounding, NaN and infinities are not modelled.
- Division by a zero or negative scale: `Viewport.ScreenToWorld` requires a positive scale. The code never divides by anything else, because the session invariant keeps the scale at or above 0.1.
