# Sierpinski gasket animation, modelled in Dafny

The program draws a 3D Sierpinski gasket with WebGL and animates it with a script of actions that
the user can edit. This project models four of its parts and proves what they do.

- **Animation engine** (`animation_engine.dfy`, `engine_properties.dfy`). This covers `animUpdate`,
  `resetAnimationState`, `resetActionState` and the start/stop button.
  - The module-level variables become the fields of class `AnimationEngine.Engine`. Each method is
    proved to move those fields exactly as a function over the value `EngineState` says.
  - A tick runs the current action: a rotation about X, Y or Z, a scale, a bounce, or a return to
    the centre. It then draws a frame and moves the script on when the action finishes.
  - The frame's model-view matrix is the list of its factors (`Op`), in the order the program
    multiplies them.
  - Cosine, sine, the clock and the two `Math.random` draws of a bounce tick are inputs.
  - The lemmas follow runs of ticks. They give the exact tick on which a rotation or a scale
    finishes, when a bounce ends, and how the script ends after its last action.
- **Sequence store** (`actions.dfy`, `sequence_store.dfy`). This covers the editable script:
  `addToSequence`, `removeFromSequence`, `clearSequence`, `resetToDefault`, `updateRotationValue`
  and `updateScaleValue`, over class `SequenceStore.SequenceBuilder`.
  - The script holds objects by reference. `resetToDefault` copies only the array, so after a reset
    the script's entries are the default's own objects.
  - The model keeps that sharing: an entry is either a reference to a slot of the default or an
    object of its own.
- **Gasket generator** (`gasket.dfy`). This covers `triangle`, `tetra` and `divideTetra`, which
  push onto the global `points` and `colors` arrays (class `Gasket.Builder`).
  - Vertices and colours are of any type. The midpoint `mix(a, b, 0.5)` is a parameter.
- **Colour codec** (`color_hex.dfy`). This covers `rgbaToHex` and `hexToRgba`, which convert
  between the colour pickers' `#rrggbb` strings and colours whose channels are bytes.

Notes on how the program behaves, which the model keeps:

- A tick with an empty or exhausted script throws. The current action is undefined (Assignment.js:408),
  and reading its type throws (Assignment.js:455). `Step` returns `None` for this case.
- An unknown tag or axis matches no case of the switches (Assignment.js:420-448, 455-525). Such an
  action never finishes, so the script stalls on it.
- The start/stop button only toggles `animFlag` (Assignment.js:181-187). Starting always resets the
  state and the index; there is no pause that keeps progress.
- The frame is `Rz(finalRotationZ)` (Assignment.js:412), then the rotations, then the translation
  and the scale (Assignment.js:529-530). A rotate action shows only its own axis
  (Assignment.js:428, 437, 446); any other action shows all three committed rotations
  (Assignment.js:451-453).
- The snap test of a scale, `Math.abs(scaleDiff) < scaleSpeed` (Assignment.js:480), is strict. Over
  the reals, a scale from 1 to 2 at speed factor 1 lands exactly on 2.0 on tick 50 without
  finishing, and finishes on tick 51 (`EngineProperties.ScaleDoubleScenario`). The program's
  doubles accumulate rounding error: 1 plus 49 steps of 0.02 comes to slightly more than 1.98, so
  the gap to 2 is just under 0.02 and the program snaps on tick 50. Floating point is listed under "## Left out".
- `resetToDefault` (Assignment.js:709) copies only the array. Two resets in a row still give the same
  script (`SequenceStore.ResetShowsDefault`). But once an entry has been edited after a reset, a
  later reset no longer restores the built-in default (see Findings).

## Model

| member | source | states |
|---|---|---|
| AnimationEngine.RotateStepSpec | Assignment.js:415-448 | A rotation's axis moves its step angle by 2·speedFactor in the target's direction. The action finishes exactly when the angle's magnitude reaches the target's; then exactly the target is committed and the step angle returns to 0. Other axes, position, scale and bookkeeping stay. An unknown axis changes nothing and never finishes. |
| AnimationEngine.ScaleStep | Assignment.js:475-486 | The scale snaps to the target and finishes iff it is closer than 0.02·speedFactor. Otherwise it moves exactly that far towards the target, never past it. Only the scale changes. |
| AnimationEngine.CenterStep | Assignment.js:456-473 | Position, X step angle and scale−1 shrink by 1−0.02·speedFactor. The action finishes iff all four are then within 0.001 of rest, and then they are exactly 0, 0, 0, 1. At speeds keeping the factor in [0,1], nothing moves away from rest. |
| AnimationEngine.Jitter | Assignment.js:503-508 | The jitter of a draw in [0,1) lies in [−0.1, 0.1). |
| AnimationEngine.BounceStepSpec | Assignment.js:488-524 | Start time and duration are taken only when no bounce is running. A collision happens iff a wall would be crossed. The side wall gives π−a, the top or bottom −a, each plus the jitter of the next draw. The position advances along the new heading. The action finishes iff the duration has elapsed, and then the bounce stops. Nothing else changes. |
| AnimationEngine.BounceHeading | Assignment.js:495-510 | The wall checks compute the reflected heading and the collision flag, consuming draws in order. |
| AnimationEngine.Dispatch | Assignment.js:415-526 | Each action kind runs its own handler, and the bare `'bounce'` runs a bounce with no duration. Any other tag leaves the state alone and never finishes. Actions other than a rotation keep committed rotations and the Y/Z step angles. No action touches the index or the run flag. |
| AnimationEngine.Frame | Assignment.js:412-530 | A frame is Rz(finalRotationZ) first, then translation and scale last. A rotate action shows only its axis's committed plus step angle; any other action shows all three committed rotations. |
| AnimationEngine.ResetAction | Assignment.js:580-585 | The step angles go to 0 and no bounce runs. Transform, heading, bounce clock, index and flag are kept. |
| AnimationEngine.ResetAnimation | Assignment.js:562-578 | Position, step angles and committed rotations go to 0, scale to 1, no bounce runs, and the index goes to 0. The flag, heading and bounce clock are kept. |
| AnimationEngine.Toggled | Assignment.js:181-187 | The button flips the flag. Starting is a full reset at index 0; stopping changes nothing else. |
| AnimationEngine.Advance | Assignment.js:535-554 | A finished action moves the index on by one. After the last action the index goes to 0 and the run stops with nothing else reset; otherwise only the per-action state is cleared. The transform is never touched. |
| AnimationEngine.Step | Assignment.js:400-559 | A tick throws (None) iff the index is past the end of the script. |
| AnimationEngine.StepFrame | Assignment.js:528-530 | Every frame starts with the fixed Z rotation and ends with the translation and scale the tick leaves. |
| AnimationEngine.StepProgression | Assignment.js:535-558 | An unfinished action keeps the index and flag. A finished one moves to the next action with step angles 0 and no bounce, or, after the last, stops at index 0. |
| AnimationEngine.Engine.constructor | Assignment.js:43-111 | The page-load values, with the random initial heading as a parameter. |
| AnimationEngine.Engine.ResetAnimationState | Assignment.js:562-578 | The new fields are `ResetAnimation` of the old ones. |
| AnimationEngine.Engine.ResetActionState | Assignment.js:580-585 | The new fields are `ResetAction` of the old ones. |
| AnimationEngine.Engine.Toggle | Assignment.js:181-187 | The new fields are `Toggled` of the old ones, and the result says whether the run started. |
| AnimationEngine.Engine.RotateTick | Assignment.js:415-448 | The new fields and the completion flag are those of `RotateStep`. |
| AnimationEngine.Engine.CenterTick | Assignment.js:456-473 | The new fields and the completion flag are those of `CenterStep`. |
| AnimationEngine.Engine.ScaleTick | Assignment.js:475-486 | The new fields and the completion flag are those of `ScaleStep`. |
| AnimationEngine.Engine.StartBounce | Assignment.js:489-493 | Records the start time, the running flag and the duration, and nothing else. |
| AnimationEngine.Engine.BounceTick | Assignment.js:488-524 | The new fields, completion and collision are those of `BounceStep`. |
| AnimationEngine.Engine.PerformAction | Assignment.js:415-526 | The new fields, completion and collision are those of `Dispatch`. |
| AnimationEngine.Engine.AdvanceSequence | Assignment.js:535-554 | The new fields are `Advance` of the old ones. |
| AnimationEngine.Engine.Tick | Assignment.js:400-559 | One `animUpdate` equals `Step`: the same new fields, frame and collision. Another frame is requested iff the run flag is still set. A throwing tick changes nothing. |
| EngineProperties.RotateRunBeforeCompletion | Assignment.js:439-447 | While j steps fall short of the target, the step angle after j ticks is j steps in the target's direction. Nothing is committed and no earlier tick finished. |
| EngineProperties.RotateCompletesNext | Assignment.js:439-447 | The tick on which j+1 steps reach the target finishes the rotation. It commits exactly the target and resets the step angle. |
| EngineProperties.RotateFirstCompletion | Assignment.js:415-447 | At positive speed from step angle 0, the rotation finishes on the first tick k ≥ 1 with k·2·speedFactor ≥ \|target\|, and on no earlier one. Exactly the target is committed. |
| EngineProperties.ScaleRunBeforeCompletion | Assignment.js:475-486 | While j steps fit in the distance, the scale has moved exactly j steps towards the target. Nothing else changed and no earlier tick finished. |
| EngineProperties.ScaleCompletesNext | Assignment.js:480-482 | The tick after the last fitting step finishes the scale, exactly at the target. |
| EngineProperties.ScaleFirstCompletion | Assignment.js:475-486 | A scale finishes on tick j+1 when j steps fit and j+1 do not, ending exactly at the target, and on no earlier tick. |
| EngineProperties.RunTicksRotating | Assignment.js:400-559 | Whole ticks of a script whose current action is a rotation are that rotation's own steps until it finishes. |
| EngineProperties.RotateHalfTurnScenario | Assignment.js:439-551 | For [Rotate Z 180] at speed 1: after 89 ticks it is still rotating at 178° with nothing committed. Tick 90 commits 180° and stops at index 0. |
| EngineProperties.RunTicksScaling | Assignment.js:400-559 | Whole ticks of a script whose current action is a scale are that scale's own steps until it finishes. |
| EngineProperties.ScaleDoubleScenario | Assignment.js:475-551 | For [Scale 2] from 1 at speed 1: tick 50 is at 2.0 but still running, and tick 51 finishes and stops the run at 2.0. |
| EngineProperties.BounceReflectionBounds | Assignment.js:495-510 | Clear of the walls the heading is kept. Off a side wall it is within 0.1 of π−a, off the top or bottom within 0.1 of −a, and off a corner within 0.2 of a−π. |
| EngineProperties.BounceFlags | Assignment.js:488-524 | Successive ticks of one bounce give one completion flag per tick. |
| EngineProperties.UntimedBounceNeverEnds | Assignment.js:488-523 | A bounce with no duration, such as the default's bare `'bounce'`, never finishes. |
| EngineProperties.RunningBounceEnds | Assignment.js:520-523 | A running bounce finishes on the first tick whose clock is at least start+duration, and not before. |
| EngineProperties.TimedBounceEndsOnTime | Assignment.js:488-523 | A new bounce takes its start from its first tick and finishes on the first tick at least `duration` seconds later, and not before. |
| EngineProperties.SequenceEndsAfterLastAction | Assignment.js:535-554 | After n < length completions the run is at action n and still going. The length-th completion stops it at index 0. The transform is never touched. |
| SequenceStore.Contents | Assignment.js:79 | The script the engine reads has one action per entry. |
| SequenceStore.SpliceStart | Assignment.js:698-699 | The splice start is never past the end of the array. |
| SequenceStore.DefaultEntries | Assignment.js:708-709 | The array copy has one entry per default action. |
| SequenceStore.AddAppendsOne | Assignment.js:675-696 | Exactly one entry is appended and earlier ones stay. `rotate…` gives Rotate(last char, 360), `scale` gives Scale(1), `bounce` gives Bounce(5), and anything else the bare string. The store stays valid. |
| SequenceStore.RemoveDeletesOne | Assignment.js:698-701 | An in-range index deletes exactly that entry and shifts the rest. An index at or past the end changes nothing. A negative index counts from the end, and one before the start deletes the first entry. The store stays valid. |
| SequenceStore.DeleteAt | Assignment.js:699 | Deleting entry k removes exactly element k of the script and keeps the store valid. |
| SequenceStore.ResetShowsDefault | Assignment.js:708-711 | A reset shows the default's current seven objects, and a second reset changes nothing further. |
| SequenceStore.FirstResetIsDefault | Assignment.js:81-89 | The first reset gives exactly the built-in seven-action default. |
| SequenceStore.WriteEntryChangesOne | Assignment.js:780-789 | Editing one entry in place changes that script element only. The default changes only through a shared entry. |
| SequenceStore.UpdateRotationChangesOne | Assignment.js:777-782 | Only a rotation at that index changes, to the parsed degrees, or 360 when the parse gives NaN or 0. Anything else leaves the store alone. |
| SequenceStore.UpdateScaleChangesOne | Assignment.js:785-791 | Only a scale at that index changes, to the parsed value, or 1 when the parse gives NaN or 0. Anything else leaves the store alone. |
| SequenceStore.DefaultProducible | Assignment.js:81-89 | No bare string of the default reads as another action kind. |
| SequenceStore.ContentsProducible | Assignment.js:675-694 | No script the store holds has a bare string the engine would read as a rotate, scale or bounce. |
| SequenceStore.EditSurvivesReset | Assignment.js:709-780 | As written: an edit of an entry after a reset survives the next reset. |
| SequenceStore.ResetAfterEditIsNotDefault | Assignment.js:709-780 | As written: reset, set entry 0 to 90°, reset; the script then starts with Rotate Z 90, not the default's 180. |
| SequenceStore.ResetCopyIsDefault | Assignment.js:708-711 | With a copying reset, every reset gives exactly the built-in default, and no edit reaches it. |
| SequenceStore.SequenceBuilder.constructor | Assignment.js:656-672 | The script starts empty and is reset, so it shows the built-in default. |
| SequenceStore.SequenceBuilder.AddToSequence | Assignment.js:675-696 | The new store is `Add` of the old one, valid, and its script is the old one plus `Added(name)`. |
| SequenceStore.SequenceBuilder.RemoveFromSequence | Assignment.js:698-701 | The new store is `Remove` of the old one, and it is valid. |
| SequenceStore.SequenceBuilder.ClearSequence | Assignment.js:703-706 | The script is empty and the default is kept. |
| SequenceStore.SequenceBuilder.ResetToDefault | Assignment.js:708-711 | The new store is `Reset` of the old one, and its script is the default's current objects. |
| SequenceStore.SequenceBuilder.UpdateRotationValue | Assignment.js:777-782 | The new store is `UpdateRotation` of the old one, and it is valid. |
| SequenceStore.SequenceBuilder.UpdateScaleValue | Assignment.js:785-791 | The new store is `UpdateScale` of the old one, and it is valid. |
| Gasket.GasketColorsSize | Assignment.js:592-636 | Depth n pushes 12·4^n colours. |
| Gasket.GasketSize | Assignment.js:612-636 | Depth n pushes 12·4^n vertices and exactly as many colours. |
| Gasket.GasketColorPattern | Assignment.js:602-609 | Vertex i has palette entry (i/3) mod 4: a triangle's three vertices share a colour, and each tetrahedron's faces use entries 0, 1, 2, 3 in order. |
| Gasket.Builder.constructor | Assignment.js:18-39 | The arrays start empty and the palette is given. |
| Gasket.Builder.Triangle | Assignment.js:592-600 | Three vertices and three copies of the chosen colour are appended, in lockstep. |
| Gasket.Builder.Tetra | Assignment.js:603-609 | The four faces (a,c,b), (a,c,d), (a,b,d), (b,c,d) are appended, coloured 0 to 3. |
| Gasket.Builder.DivideTetra | Assignment.js:612-636 | Appends `GasketPoints` and `GasketColors` for the depth. The palette is unchanged. |
| Gasket.Builder.Generate | Assignment.js:373-392 | After emptying and regenerating, the arrays hold 12·4^n vertices and as many colours, in the face-colour pattern. |
| ColorHex.RgbaToHex | Assignment.js:641-646 | The output is `#` and six lower-case hex digits, each channel's high then low nibble, zero-padded. Alpha is dropped. |
| ColorHex.ChannelDigits | Assignment.js:643-645 | `toString(16).padStart(2,'0')` of a byte is exactly its two nibble digits. |
| ColorHex.Slice | Assignment.js:649-651 | `slice` is at most the requested width, is exact inside the string, and is empty past its end. |
| ColorHex.DigitPrefix | Assignment.js:649-651 | `parseInt` reads the leading hex digits, up to the first non-digit. |
| ColorHex.ParseChannelInside | Assignment.js:649-651 | Inside the string, a channel reads exactly the two characters of its slice. |
| ColorHex.ParseChannel | Assignment.js:649-651 | A channel parses iff its slice starts with a hex digit and is not `0x` or `0X`, which `parseInt` skips, leaving nothing. A parsed channel is a byte. |
| ColorHex.ParseTwoDigitsIsByte | Assignment.js:649-651 | Any slice of two characters that parses gives a value below 256. |
| ColorHex.ParseTwoDigits | Assignment.js:649-651 | Two hex digits read as 16·high + low. |
| ColorHex.HexToRgba | Assignment.js:648-653 | The result is defined iff each of characters 1, 3 and 5 is a hex digit that does not open a `0x`/`0X` pair. Its alpha is 1. |
| ColorHex.HexPrefixChannelIsNaN | Assignment.js:649 | `#0x0000` has a NaN red channel, while `#0a0000` reads as red 10. |
| ColorHex.HexRoundTrip | Assignment.js:641-653 | `hexToRgba(rgbaToHex(c))` is c with alpha 1. |
| ColorHex.ChannelRoundTrip | Assignment.js:643-651 | Two lower-case digits parse to a byte that is written back as the same two digits. |
| ColorHex.CanonicalHexRoundTrip | Assignment.js:641-653 | A lower-case `#rrggbb` parses, and `rgbaToHex` writes it back unchanged. |

## Left out

- WebGL, and the vector and matrix library (`mult`, `rotate`, `translate`, `scale`, `mix`, `flatten`, `vec4`): a frame is a list of symbolic factors, and `mix` is a parameter of the gasket generator.
- The DOM and UI wiring: sliders, checkboxes, colour-picker handlers and the HTML that `updateSequenceDisplay` builds.
- `updateBounceValue` is referenced by the bounce entry's input at Assignment.js:743, but it is defined nowhere, so it is not modelled.
- Audio and background images. The music pause in `resetAnimationState` and at the end of the script is left out.
- `targetScale = 1` in `resetAnimationState`: nothing in the engine reads it.
- The `requestAnimationFrame` loop: `Engine.Tick` returns whether another frame is requested.
- `performance.now`, `Math.cos`, `Math.sin` and `Math.random` are inputs of a tick, and the random initial heading is a constructor parameter.
- `isBouncing`, `bounceStartTime` and `bounceTimer` are never declared; reading one before any assignment would throw. Every run starts with `resetAnimationState` (Assignment.js:187), which assigns `isBouncing = false` (Assignment.js:571) before the first tick. The first bounce tick then sees `!isBouncing` (Assignment.js:489) and assigns the other two (Assignment.js:490-492) before line 520 reads them. So the model's initial values (false, 0 and None) are never observed.
- `recompute`, `getRandomColor` and `updateRandomColors`, apart from their regeneration of the gasket, which `Gasket.Builder.Generate` models: they reset globals alongside WebGL buffer uploads and random colours. A bounce's collision flag is returned instead of recolouring.
- Floating point: all arithmetic is over the reals, so IEEE-754 rounding and drift are not modelled. Counts of ticks can differ by one where a sum of steps lands on a boundary, as for the 1-to-2 scale (tick 51 over the reals, tick 50 in doubles). `Math.sign` has no NaN case.
- Dispatch on `Named("scale")`: a bare `'scale'` string would compute with an undefined target (NaN). The store cannot produce one (`SequenceStore.ContentsProducible`), so the model treats it as inert.
- ColorHex.RgbaToHex: channels are bytes. The `Math.round(c * 255)` and `/ 255` scalings are not modelled, and neither are channels outside [0, 1], which would give three digits or a sign.
- ColorHex.ParseHex: `parseInt` also skips leading whitespace and accepts a sign before the digits. The model reads such a slice as NaN (`None`). A colour input never produces one. (The `0x`/`0X` prefix is modelled.)
- ColorHex.ParseChannel: for the same reason, a slice opening with whitespace or a sign counts as unparsed, where `parseInt` would read the digits after it.
- ColorHex.HexToRgba: a colour with a NaN channel is modelled as `None`, not as a colour with NaN components. A channel slice opening with whitespace or a sign is `None` here; the program would read it (and a sign would make the channel negative).
- `updateRotationValue` and `updateScaleValue` take the result of `parseInt` or `parseFloat` as an input, `None` standing for NaN; the string parsing is not modelled.

## Findings

| source | as written | input that shows it | evidently intended | confidence | as-written member | corrected member |
|---|---|---|---|---|---|---|
| Assignment.js:709 | `[...defaultSequence]` copies the array but not its objects. Editing a rotation or scale after a reset changes the default itself, so a later reset brings the edit back. | Reset, set the first rotation to 90, reset again: the script starts with a 90° Z rotation instead of 180°. | Every reset restores the built-in default. | not executed | SequenceStore.ResetAfterEditIsNotDefault | SequenceStore.ResetCopyIsDefault |
