# Run_menu: movement controller and menu decisions in Dafny

This project models the logic of a small Unity game: the 2D character
controller `Player2DControl` (WalkAndRun.cs), and the few decisions buried
in the menu builders `CompleteMenuCreator` (MenuCreator.cs) and
`SettingsMenuCreator` (SettingsMenuCreator.cs).

- `PlayerControl` (player_control.dfy) holds the controller as a class.
  Its fields are the axis mode, `speed`, `addForce`, the facing flag, the
  grounded flag `jump`, `direction`, the cached `vertical`/`horizontal`
  inputs and the mirrored x scale. The controller steers a separate
  `Rigidbody2D`, whose velocity, damping, gravity scale, rotation constraint
  and pending force it overwrites in place. Each engine callback is a method:
  `Start`, `Update` (with `Flip`), `FixedUpdate`, `OnCollisionStay2D` and
  `OnCollisionExit2D`. The keys held in a frame, the jump key during a
  physics step and the tag of the other collider are method parameters.
  Each method's postcondition ties the new state to a pure function of the
  old state: `VerticalInput`, `HorizontalInput`, `BoostedSpeed`,
  `FacingAfter` and `FixedStepVelocity`. The properties are proved about
  those functions, including lemmas over whole runs of frames.
- `MainMenu` (main_menu.dfy) holds the resolution toggle and the quality
  cycle as pure functions of the engine's current values. It also models
  the settings panel that is built lazily on first opening.
- `SettingsMenu` (settings_menu.dfy) holds the loops that fill the
  resolution and quality dropdowns, as methods with loop invariants. It
  also models the panel that is built hidden at start and shown on request.
- `Display` (display.dfy) holds the resolution pair and the decimal
  rendering of an `int`. `Wrappers` (wrappers.dfy) holds `Option`.

Velocities, `speed` and `addForce` are `real`. The engine's 32-bit floats
are not modelled, and neither are their rounding and overflow.

Three points of the controller's behaviour are easy to misread:
- Grounding is set on every physics step of continuing contact
  (`OnCollisionStay2D`), not on entering contact.
- `Update` calls `Flip` in both axis modes, but `Flip` does nothing in
  XAndY mode.
- Unity's `Mathf.Sign(0)` is 1, and the model's `Sign` is too.

The cached inputs `vertical` and `horizontal` are `float` fields in the
source and `real` fields here; they only ever hold -1, 0 or 1.

## Model

| member | source | states |
|---|---|---|
| PlayerControl.VerticalInput | WalkAndRun.cs:115-116 | vertical input is in {-1,0,1}; it is 1 exactly when up is held, even with down held; it is -1 exactly when down is held and up is not |
| PlayerControl.HorizontalInput | WalkAndRun.cs:118-119 | horizontal input is in {-1,0,1}; it is -1 exactly when left is held, even with right held; it is 1 exactly when right is held and left is not |
| PlayerControl.BoostedSpeed | WalkAndRun.cs:127-128 | OnlyX mode never changes speed; in XAndY mode a key press adds addForce; a release without a press subtracts it; with neither, speed is unchanged |
| PlayerControl.FacingAfter | WalkAndRun.cs:132-133 | in OnlyX mode, after a frame with horizontal input the facing flag equals (input > 0); with no horizontal input, or in XAndY mode, the flag is unchanged |
| PlayerControl.Sign | WalkAndRun.cs:75 | the engine's sign is 1 or -1, and it is 1 exactly for non-negative values |
| PlayerControl.ClampComponent | WalkAndRun.cs:73-76 | for a non-negative limit: the result's magnitude is at most the limit; the value is kept exactly when it is within the limit; an over-limit value becomes exactly the limit carrying the value's sign (magnitude equal to the limit, sign never reversed, and strictly preserved when the limit is positive) |
| PlayerControl.FixedStepVelocity | WalkAndRun.cs:73-91 | vx is clamped to speed/100; with speed >= 0, abs(vx) <= speed/100; in XAndY mode vy is clamped and bounded the same way; in OnlyX mode vy becomes addForce when the jump key is held and the body is grounded, and is otherwise untouched, for every incoming velocity |
| PlayerControl.Rigidbody2D.AddForce | WalkAndRun.cs:71 | the force is added to the body's pending force |
| PlayerControl.Player2DControl.constructor | WalkAndRun.cs:8-24 | the inspector values are stored; inputs and direction start at zero; the body starts ungrounded; the input invariant holds |
| PlayerControl.Player2DControl.Default | WalkAndRun.cs:9-18 | the field initialisers: OnlyX mode, speed 150, addForce 7, facing right |
| PlayerControl.Player2DControl.Start | WalkAndRun.cs:26-48 | OnlyX mode: FreezeRotation, gravity 1, damping 0; XAndY mode: no constraints, gravity 0, damping 10 |
| PlayerControl.Player2DControl.OnCollisionStay2D | WalkAndRun.cs:51-58 | contact with a "Ground"-tagged collider sets grounded and damping 10; any other tag changes nothing |
| PlayerControl.Player2DControl.OnCollisionExit2D | WalkAndRun.cs:60-67 | leaving a "Ground"-tagged collider clears grounded and sets damping 0; any other tag changes nothing |
| PlayerControl.Player2DControl.FixedUpdate | WalkAndRun.cs:69-92 | given the input invariant: the pending force grows by direction * mass * speed, and in OnlyX mode its y component is unchanged (the push is purely horizontal); the new velocity is FixedStepVelocity of the old velocity, speed, addForce, the jump key and the grounded flag |
| PlayerControl.Player2DControl.Push | WalkAndRun.cs:71 | the pending force grows by direction * mass * speed, and in OnlyX mode, given the input invariant, its y component is unchanged |
| PlayerControl.Player2DControl.ClampVelocity | WalkAndRun.cs:73-91 | the new velocity is FixedStepVelocity of the old velocity, speed, addForce, the jump key and the grounded flag |
| PlayerControl.Player2DControl.Flip | WalkAndRun.cs:94-103 | in OnlyX mode the facing flag toggles and the x scale is negated; in XAndY mode nothing changes; agreement between facing and the sign of the scale is preserved |
| PlayerControl.Player2DControl.Update | WalkAndRun.cs:105-134 | the cached inputs are decoded with the key priorities; direction is (h, 0) in OnlyX mode and (h, v) in XAndY mode; speed follows BoostedSpeed and facing follows FacingAfter; the scale is negated exactly when facing changes; the input invariant and the facing/scale agreement are preserved |
| PlayerControl.Player2DControl.TurnToInput | WalkAndRun.cs:132-133 | facing follows FacingAfter of the current horizontal input, and the scale is negated exactly when facing changes |
| PlayerControl.SpeedAfterFramesCounts | WalkAndRun.cs:127-128 | over any run of frames in XAndY mode, speed ends at start + addForce * (presses - releases); the boost is additive, so rapid presses compound |
| PlayerControl.SpeedFixedInOnlyX | WalkAndRun.cs:121-124 | over any run of frames in OnlyX mode, speed never changes |
| PlayerControl.PressReleaseNetZero | WalkAndRun.cs:127-128 | a run of frames with as many releases as presses leaves speed unchanged, in either axis mode |
| PlayerControl.FacingFollowsLastInput | WalkAndRun.cs:132-133 | in OnlyX mode, after a run of frames the facing flag is (h > 0), where h is the input of the last frame with horizontal input |
| PlayerControl.FacingUnchangedWithoutInput | WalkAndRun.cs:94-103 | in XAndY mode, and in frames without horizontal input, facing never changes |
| MainMenu.NextResolution | MenuCreator.cs:630-637 | the width alone decides: 1920 becomes 1280x720, 1280 becomes 1366x768, 1366 becomes 1600x900, and every other width becomes 1920x1080; the result is always one of those four resolutions and never has the old width |
| MainMenu.TogglesStayInCycle | MenuCreator.cs:630-637 | from any starting width, every press of the toggle lands on 1280, 1366, 1600 or 1920 |
| MainMenu.FourTogglesReturn | MenuCreator.cs:630-637 | from any of the four toggle widths, 4m presses return to the starting width |
| MainMenu.CSharpRemainder | MenuCreator.cs:645 | C# `%` on int: the remainder is smaller in magnitude than the divisor and has the dividend's sign; for non-negative operands it equals the mathematical remainder |
| MainMenu.NextQualityLevel | MenuCreator.cs:644-646 | with no quality levels the `%` fails (None); otherwise the next level is (current+1) mod n, and it lies in [0, n) |
| MainMenu.QualityClimbs | MenuCreator.cs:645 | below the last level, the next level is one up |
| MainMenu.QualityWraps | MenuCreator.cs:645 | the last level n-1 wraps to 0 |
| MainMenu.LevelAfterCycles | MenuCreator.cs:644-646 | any number of presses keeps the level in [0, n) |
| MainMenu.LevelsClimb | MenuCreator.cs:644-646 | k presses from a level more than k below the top move it up by k |
| MainMenu.CyclingAllLevelsReturns | MenuCreator.cs:644-646 | n presses return to the starting level |
| MainMenu.CompleteMenuCreator.constructor | MenuCreator.cs:24 | no settings panel exists at first |
| MainMenu.CompleteMenuCreator.CreateSettingsMenu | MenuCreator.cs:206-213 | a new panel is built, stored and active |
| MainMenu.CompleteMenuCreator.OpenSettingsMenu | MenuCreator.cs:197-204 | afterwards the panel exists and is active; an existing panel is reused; a new one is built only when none existed |
| MainMenu.CompleteMenuCreator.CloseSettingsMenu | MenuCreator.cs:232-234 | the close button hides the panel |
| MainMenu.CompleteMenuCreator.ResetSettingsMenu | MenuCreator.cs:606-615 | the reset button hides the current panel and replaces it with a new, active one |
| MainMenu.OpenTwice | MenuCreator.cs:197-204 | two openings in a row yield the same panel, which is active; an existing panel is the one shown |
| Display.DecimalString | SettingsMenuCreator.cs:344 | the decimal text of an int is non-empty and starts with '-' exactly for negative numbers |
| Display.NaturalDigits | SettingsMenuCreator.cs:344 | a non-negative number prints as decimal digits only, with no leading zero unless it is 0, and the digits denote the number |
| Display.DecimalRoundTrip | SettingsMenuCreator.cs:344 | reading the printed text back gives the number; a negative number prints as '-' followed by its magnitude |
| Display.DecimalStringInjective | SettingsMenuCreator.cs:344 | different numbers print differently |
| SettingsMenu.ResolutionOptions | SettingsMenuCreator.cs:339-354 | one option "w × h" per resolution, in order; if no entry matches the screen size the selection is 0; otherwise it is the last matching entry; it is below the number of entries when there are any |
| SettingsMenu.QualityOptions | SettingsMenuCreator.cs:409-417 | the options are the quality names in order, and the selection is the current quality level |
| SettingsMenu.SettingsMenuCreator.constructor | SettingsMenuCreator.cs:13-18 | the offered resolutions default to 1920x1080, 1280x720, 1366x768, 1600x900; no panel exists yet |
| SettingsMenu.SettingsMenuCreator.CreateSettingsPanel | SettingsMenuCreator.cs:47-80 | a new active panel is built, with both dropdowns filled as ResolutionOptions and QualityOptions state |
| SettingsMenu.SettingsMenuCreator.Start | SettingsMenuCreator.cs:28-33 | the panel is built with its dropdowns filled, and left hidden |
| SettingsMenu.SettingsMenuCreator.OpenSettings | SettingsMenuCreator.cs:35-45 | an existing panel is shown again, and its options and selections stay as built, even if the screen or quality has changed since; otherwise a new panel is built, filled, and active |
| SettingsMenu.SettingsMenuCreator.CloseSettings | SettingsMenuCreator.cs:151-160 | the close, apply and cancel buttons hide the panel; neither dropdown's options nor its selection change, and only the panel's active flag may be written |

## Left out

- Physics integration: `body.AddForce` only accumulates a pending force here. The engine's integration of forces, gravity and damping into velocity, between physics steps, is not modelled.
- Look-at-cursor (WalkAndRun.cs:107-113): camera projection, `Atan2` and quaternion rotation are floating-point maths over engine singletons. The `lookAtCursor` flag and `rotationY` are not modelled.
- Key bindings (`KeyCode` fields): the model takes the state of the bound keys directly, as `FrameKeys` and the `jumpHeld` parameter.
- Floating point: velocities, speed and forces are exact reals. 32-bit float rounding is not modelled.
- `GetComponent<Rigidbody2D>()` in `Start`: the body is passed to the constructor. `RequireComponent` guarantees that it exists, so a missing body is not modelled.
- PlayerControl.ClampComponent: its bound and sign clauses are stated only for a non-negative limit. The function computes the source's result for every limit, but with a negative `speed` the source's clamp does not bound anything.
- PlayerControl.FixedStepVelocity: the velocity bounds are stated only for `speed >= 0`, for the same reason.
- MainMenu.NextQualityLevel: the range of the next level is stated only when current + 1 >= 0, which covers every level the engine reports. For a negative current level the result is still C#'s truncating remainder.
- MainMenu.WidthAfterToggles: the width after several presses assumes each `Screen.SetResolution` request takes effect before the next press, so that `Screen.width` reads back the requested width. `TogglesStayInCycle` and `FourTogglesReturn` rest on that assumption. The engine may apply the change later, or refuse it.
- Engine side effects: `Screen.SetResolution`, `QualitySettings.SetQualityLevel`, `SceneManager.LoadScene` and `Application.Quit`/the editor stop are not modelled. The model gives the value that would be passed to them, and the log line that reads `Screen.width` back is not modelled.
- The dropdown's own clamping of `value` to the option range is engine behaviour. The model gives the index the script assigns.
- UI construction in all three menu files: game objects, rect transforms, images, shadows, text, colours, sizes and listener wiring. A panel is reduced to its active flag and, for the settings panel, its two dropdowns.
- Persistence and audio: `PlayerPrefs` reads, writes and deletions (including those of the reset button), and the mixer's `Log10(value) * 20` conversion. These are foreign calls and float maths.
- MenuButtons.cs: null-guarded listener wiring and styling. `HasSaveGame` depends on `PlayerPrefs` and on file-system I/O.
- `ButtonAnimator` and `ButtonHoverEffect`: per-frame scale tweaks driven by the event system.
- `Debug.Log` output everywhere.
