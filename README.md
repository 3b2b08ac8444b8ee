# Retro portfolio desktop — a verified Dafny model of its core

The portfolio is a Next.js site dressed as a retro desktop. A parallax mountain scene sits behind a row of desktop windows. A navbar shows a breadcrumb and a fake battery. A round profile picture cycles through the images it can find. A certificate viewer zooms, rotates and pans. A mini terminal boots line by line and understands a dozen commands. One of those commands starts a Dino-style runner game.

This project models the logic behind those pieces and proves what the code promises about it. Drawing and React plumbing are left out.

- `dino_game.dfy` (module `DinoGame`): the runner game.
  - The per-tick update of a `Session` class, split into the steps the game loop performs: physics, animation, spawning, move-and-collide, cleanup and scoring.
  - The difficulty rules and the key handler.
  - Pure specification functions: `Fall`, `FirstHit`, `Scrolled`, `Kept`, `Speed`, `TargetSpawnDelay` and `NextSpawnTimer`.
- `mini_terminal.dfy` (module `MiniTerminal`): the terminal.
  - The de-duplicating `push` and the boot screen.
  - Command parsing and dispatch.
  - History browsing with the arrow keys.
  - The ASCII banner renderer, as a loop over a five-slot array specified by the function `Banner`.
  - A `Terminal` class holding lines, history, history index and input.
- `desktop.dfy` (module `Desktop`): the window-open and breadcrumb reducer, and the scene toggle.
- `cert_viewer.dfy` (module `CertViewer`): the image transform reducer (fit, zoom, rotation, keys, double-click) and the `Pan` drag state class.
- `circle_switcher.dfy` (module `CircleSwitcher`): profile-image detection and cycling.
  - Detection is a nested probing loop, proved against the function `Detected`.
  - The `Switcher` class holds the image list and index.
- `navbar.dfy` (module `Navbar`): the breadcrumb split and its rendering, and the `Battery` class.
- `background.dfy` (module `Background`):
  - the layer list and its z-order;
  - the clamp and the parallax tilt;
  - the scroll speed table;
  - the list of layers that failed to load, and the error overlay.
- `layout.dfy` (module `Layout`): normalisation of the `--base` CSS variable.
- Shared helpers:
  - `js_math.dfy`: JavaScript's `Math.round`, the truncating `%`, and `toFixed(3)` as a value;
  - `strings.dfy`: `trim`, case mapping, `split`/`join`, and decimal rendering of naturals;
  - `wrappers.dfy`: `Option`.

Positions, speeds and scales are Dafny `real`s, which are exact rationals. `Math.round(x)` is `Floor(x + 1/2)`. Randomness enters as a roll parameter. Image loading enters as a set of loaded sheets or a `loads` predicate on URLs. The date and time strings are parameters.

Where the code and its description differ, the model follows the code. The one exception is the banner bug listed under Findings: the code is modelled as written (`MiniTerminal.ScreenAsWritten`), and the `Terminal` class uses the corrected screen update. The differences the model keeps:

- **Jump timing.** A jump lands on the 41st tick, not after `2·16/0.8 = 40` ticks. Position is integrated before velocity, so the arc needs one more tick (`DinoGame.JumpLandsAfter41Ticks`).
- **Initial player.** The starting player is marked grounded, yet stands 6 pixels above the ground line. It falls and lands on the fifth tick (`DinoGame.InitialPlayerLands`), and its state stays `idle`.

## Model

| member | source | states |
|---|---|---|
| DinoGame.Speed | src/app/components/games/DinoGame.tsx:67-69 | speed lies in [5, 18]; it is 5 at score 0; it never exceeds 5 + 0.35·score, and equals it whenever it is below the cap |
| DinoGame.SpeedMonotone | src/app/components/games/DinoGame.tsx:68 | a higher score never gives a lower speed |
| DinoGame.TargetSpawnDelay | src/app/components/games/DinoGame.tsx:72 | the target delay is at least 28 and equals max(28, 90 − score) |
| DinoGame.TargetSpawnDelayMonotone | src/app/components/games/DinoGame.tsx:72 | a higher score never gives a longer target delay |
| DinoGame.Fall | src/app/components/games/DinoGame.tsx:101-108 | after a physics step the player's bottom is at or above the ground line; x, w and h are unchanged; only jump can turn into run; a step that would reach the ground lands the player exactly on the ground line (y = 126), with dy = 0, grounded, and jump turned into run; a step that stays above ground is exactly y += dy, dy += 0.8 |
| DinoGame.FallKeepsSettled | src/app/components/games/DinoGame.tsx:101-108 | the step preserves "grounded ⇒ on the ground with dy = 0" |
| DinoGame.InitialPlayerNotSettled | src/app/components/games/DinoGame.tsx:17 | the initial player is marked grounded but is not on the ground line |
| DinoGame.IdleStaysIdle | src/app/components/games/DinoGame.tsx:101-108 | physics alone never changes the idle state, over any number of ticks |
| DinoGame.InitialPlayerLands | src/app/components/games/DinoGame.tsx:101-108 | the initial player is still in the air after 4 ticks and is on the ground, at rest, after 5 |
| DinoGame.JumpArc | src/app/components/games/DinoGame.tsx:101-108 | for the first 40 ticks after a jump the player follows the closed-form arc and stays above the ground |
| DinoGame.JumpLandsAfter41Ticks | src/app/components/games/DinoGame.tsx:101-108 | after a jump the player is airborne in the jump state for ticks 1..40, and lands in the run state on tick 41 |
| DinoGame.KindOf | src/app/components/games/DinoGame.tsx:145 | a roll below 0.7 gives small, below 0.95 gives tall, and anything else gives flying, each as an if-and-only-if |
| DinoGame.Spawned | src/app/components/games/DinoGame.tsx:144-148 | a spawned obstacle is square with the size of its kind and starts at x = 490; ground obstacles touch the ground line, flying ones float above it |
| DinoGame.SpeedFactor | src/app/components/games/DinoGame.tsx:151 | the factor is at least 0.6, at most 1 for speeds from 5 up, and exactly 1 at speed 5 |
| DinoGame.NextSpawnTimer | src/app/components/games/DinoGame.tsx:150-152 | the next delay is at least 28, and never above the target delay for any speed of at least 5 |
| DinoGame.SpawnTimerWithinTarget | src/app/components/games/DinoGame.tsx:150-152 | at the speed belonging to the score, the next delay lies between 28 and the target delay |
| DinoGame.Overlap | src/app/components/games/DinoGame.tsx:168-173 | for boxes of positive size, the strict test holds exactly when some point lies strictly inside both boxes |
| DinoGame.OverlapSymmetric | src/app/components/games/DinoGame.tsx:168-173 | the collision test is symmetric |
| DinoGame.TouchingIsNoOverlap | src/app/components/games/DinoGame.tsx:168-173 | boxes that only share an edge do not collide |
| DinoGame.Shifted | src/app/components/games/DinoGame.tsx:156-158 | every obstacle moves left by exactly the speed, and nothing is added or dropped |
| DinoGame.FirstHit | src/app/components/games/DinoGame.tsx:156-179 | the result is the first obstacle, in sequence order, that the moved player box overlaps; None means no obstacle is hit |
| DinoGame.Scrolled | src/app/components/games/DinoGame.tsx:156-179 | obstacles up to and including the first hit are moved; those after it keep their position |
| DinoGame.Scroll | src/app/components/games/DinoGame.tsx:156-179 | the loop finds exactly FirstHit and leaves the obstacles as Scrolled describes |
| DinoGame.ScrolledWellFormed | src/app/components/games/DinoGame.tsx:158 | moving obstacles keeps each one's size and kind consistent |
| DinoGame.Kept | src/app/components/games/DinoGame.tsx:182 | cleanup keeps exactly the obstacles with x + w > −10, adds nothing, and never grows the list |
| DinoGame.KeptAppend | src/app/components/games/DinoGame.tsx:182 | cleanup distributes over concatenation, so it preserves order |
| DinoGame.KeptSingle | src/app/components/games/DinoGame.tsx:182 | a single obstacle survives cleanup exactly when it is on screen |
| DinoGame.KeptIdempotent | src/app/components/games/DinoGame.tsx:182 | cleaning up twice is the same as cleaning up once |
| DinoGame.FramesOf | src/app/components/games/DinoGame.tsx:43-46 | every sheet has between 1 and 24 frames |
| DinoGame.NextAnimCounter | src/app/components/games/DinoGame.tsx:120 | the counter stays below 6·frames, and simply increments while that bound is not reached |
| DinoGame.FrameIndex | src/app/components/games/DinoGame.tsx:121 | the frame index is below the frame count, and is counter / 6 for an in-range counter |
| DinoGame.ScoreStep | src/app/components/games/DinoGame.tsx:185-188 | one more tick completes exactly one more 90-tick period when the new tick count is a multiple of 90 |
| DinoGame.Session.constructor | src/app/components/games/DinoGame.tsx:13-21 | a fresh session has the initial player, no obstacles, speed 5, zero timers and score, and is running |
| DinoGame.Session.SheetLoaded | src/app/components/games/DinoGame.tsx:56 | a loaded sheet joins the loaded set |
| DinoGame.Session.SheetFailed | src/app/components/games/DinoGame.tsx:57 | a failed sheet leaves the loaded set |
| DinoGame.Session.ApplyDifficulty | src/app/components/games/DinoGame.tsx:67-75 | speed becomes Speed(score); the spawn timer becomes the smaller of its old value and the target delay, so it is only ever lowered, never raised |
| DinoGame.Session.ApplyPhysics | src/app/components/games/DinoGame.tsx:101-108 | the player becomes Fall of the old player |
| DinoGame.Session.Animate | src/app/components/games/DinoGame.tsx:111-139 | with a loaded sheet the counter advances within [0, 6·frames) and the drawn frame is in range; without one the counter stays and a placeholder box is drawn |
| DinoGame.Session.Spawn | src/app/components/games/DinoGame.tsx:142-153 | when the decremented timer reaches 0 or below, exactly one spawned obstacle is appended and the timer reset to NextSpawnTimer; otherwise only the timer drops by one |
| DinoGame.Session.MoveAndCollide | src/app/components/games/DinoGame.tsx:156-179 | obstacles become Scrolled up to the first hit; a collision is reported exactly when there is a hit; with no hit, player, running flag and reports are unchanged |
| DinoGame.Session.Cleanup | src/app/components/games/DinoGame.tsx:182 | obstacles become Kept of the old obstacles |
| DinoGame.Session.AdvanceScore | src/app/components/games/DinoGame.tsx:185-188 | frameTick rises by one; on a multiple of 90 the score rises by one, speed becomes Speed(score), the spawn timer becomes min(old timer, target delay) and the animation counter restarts; otherwise score, speed, spawn timer and counter are unchanged |
| DinoGame.Session.Prepare | src/app/components/games/DinoGame.tsx:100-153 | the first half of a tick applies Fall to the player, advances the animation counter for the new state (when its sheet is loaded), appends a spawned obstacle and resets the timer exactly when the countdown runs out (else decrements it), draws a frame, and keeps the grounded invariant |
| DinoGame.Session.Finish | src/app/components/games/DinoGame.tsx:181-188 | the end of a completed tick keeps exactly Kept of the obstacles (all on screen), counts the tick, and on multiples of 90 raises the score, re-applies speed and the spawn-timer minimum and restarts the counter; otherwise speed, timer and counter are unchanged |
| DinoGame.Session.Tick | src/app/components/games/DinoGame.tsx:87-196 | a stopped session does nothing. A running tick applies Fall, spawns by the countdown, and tests the moved obstacles for a hit in order: the game keeps running exactly when nothing is hit. Without a hit, the obstacles are the scrolled ones with off-screen ones dropped, the tick is counted, and on multiples of 90 the score, speed, spawn-timer minimum and counter reset follow; with a hit the obstacles stop at the hit, the player dies, the score is reported once and cleanup and scoring are skipped. The score never decreases |
| DinoGame.Session.Quit | src/app/components/games/DinoGame.tsx:206-209 | Escape stops the game and requests closing once, without reporting a score |
| DinoGame.Session.KeyDown | src/app/components/games/DinoGame.tsx:200-210 | a jump key from the ground sets dy = −16, ungrounds and enters the jump state; any other case changes the player not at all; Escape quits |
| MiniTerminal.Push | src/app/components/MiniTerminal.tsx:49-55 | the new last line is the text; the list is unchanged exactly when its last line already equals the text, and otherwise grows by that one line |
| MiniTerminal.PushAll | src/app/components/MiniTerminal.tsx:152-156 | pushing no texts changes nothing; otherwise the screen ends with the last text (prefix and length bounds in PushAllExtends) |
| MiniTerminal.PushAllExtends | src/app/components/MiniTerminal.tsx:49-55 | pushing many lines keeps the old screen as a prefix, adds at most one line per text, and ends with the last text |
| MiniTerminal.PushTwice | src/app/components/MiniTerminal.tsx:49-55 | pushing the same text twice is the same as pushing it once |
| MiniTerminal.PushAllNoRepeat | src/app/components/MiniTerminal.tsx:49-55 | texts with no adjacent repeat, none repeating the current last line, are all appended |
| MiniTerminal.BootScreen | src/app/components/MiniTerminal.tsx:58-88 | the finished boot screen ends with "> Ready." (the full contents are proved in BootShowsAll) |
| MiniTerminal.BootShowsAll | src/app/components/MiniTerminal.tsx:58-88 | the boot screen shows all seven boot lines and then "> Ready.", in order |
| MiniTerminal.Parse | src/app/components/MiniTerminal.tsx:114-115 | the name has no space; with a space, name + " " + arg is the command; without one, the name is the command and the argument is empty |
| MiniTerminal.Dispatch | src/app/components/MiniTerminal.tsx:117-167 | clear gives an empty, clearing outcome; game opens the game and exit schedules closing, each as an if-and-only-if; echo prints its argument; banner prints the banner of its argument or of RAHUL; an unknown name prints the "Unknown command" line |
| MiniTerminal.DispatchIgnoresCase | src/app/components/MiniTerminal.tsx:117 | command names that differ only in case dispatch identically |
| MiniTerminal.ScreenAsWritten | src/app/components/MiniTerminal.tsx:152-156 | the code's screen update: `clear` empties the screen; otherwise the echoed screen stays a prefix, at most one line per output line is added, and the screen ends with the last output line, or with the echo when there is none |
| MiniTerminal.Screen | src/app/components/MiniTerminal.tsx:152-156 | the corrected screen update (see Findings): banner rows are appended after the echoed command as they are; every other output goes through the de-duplicating push; `clear` empties the screen |
| MiniTerminal.EchoComesFirst | src/app/components/MiniTerminal.tsx:112-167 | unless the command is clear, the echoed "> cmd" line is pushed before any output, which only extends the screen |
| MiniTerminal.BannerShowsFiveRows | src/app/components/MiniTerminal.tsx:152-156 | a banner command shows the echoed line followed by all five banner rows |
| MiniTerminal.BannerRowsCollapseAsWritten | src/app/components/MiniTerminal.tsx:154 | as written, `banner I` shows only three of its five rows |
| MiniTerminal.FontValid | src/app/components/MiniTerminal.tsx:280-318 | every glyph of the font has five rows of equal width |
| MiniTerminal.GlyphIn | src/app/components/MiniTerminal.tsx:323 | glyphs are rectangular, and a missing character draws as the five-space glyph |
| MiniTerminal.BannerRowSnoc | src/app/components/MiniTerminal.tsx:322-325 | adding a character appends its glyph row plus two spaces to each row |
| MiniTerminal.BannerRowAppend | src/app/components/MiniTerminal.tsx:322-325 | the banner of a concatenation is the row-wise concatenation of the banners |
| MiniTerminal.BannerRowsAligned | src/app/components/MiniTerminal.tsx:321-325 | all five rows have the same width |
| MiniTerminal.BannerWith | src/app/components/MiniTerminal.tsx:279-327 | a banner in any valid font has exactly five rows (equal width in BannerRowsAligned, concatenation in BannerRowAppend) |
| MiniTerminal.Banner | src/app/components/MiniTerminal.tsx:279-327 | a banner has exactly five rows of equal width |
| MiniTerminal.BannerOfI | src/app/components/MiniTerminal.tsx:289 | the banner of "I" is a bar, three equal stem rows and the bar again |
| MiniTerminal.BannerOfEmpty | src/app/components/MiniTerminal.tsx:320-326 | the empty text gives five empty rows |
| MiniTerminal.UnknownCharIsBlank | src/app/components/MiniTerminal.tsx:323 | a character outside the font, even after upper-casing, draws as five spaces plus the gap |
| MiniTerminal.AppendGlyph | src/app/components/MiniTerminal.tsx:324 | each of the five rows gets the glyph's row plus two spaces appended |
| MiniTerminal.RenderBanner | src/app/components/MiniTerminal.tsx:279-327 | the rendering loop over the upper-cased characters produces exactly BannerWith of the font and text |
| MiniTerminal.BrowseUp | src/app/components/MiniTerminal.tsx:183 | from no index it goes to the last entry, otherwise one step back, stopping at 0; the result is always in range |
| MiniTerminal.BrowseDown | src/app/components/MiniTerminal.tsx:197-205 | it moves one step forward while in range, and stops browsing exactly when it passes the end |
| MiniTerminal.UpThenDown | src/app/components/MiniTerminal.tsx:179-205 | from an index above 0, ArrowUp then ArrowDown returns to the same index |
| MiniTerminal.UpThenDownFromFresh | src/app/components/MiniTerminal.tsx:179-205 | from no index, ArrowUp then ArrowDown ends browsing again |
| MiniTerminal.Terminal.constructor | src/app/components/MiniTerminal.tsx:58-95 | a booted terminal shows the boot lines and the ready line, with empty input and history |
| MiniTerminal.Terminal.Type | src/app/components/MiniTerminal.tsx:237 | typing replaces the input |
| MiniTerminal.Terminal.Push1 | src/app/components/MiniTerminal.tsx:49-55 | the screen becomes Push of the old screen |
| MiniTerminal.Terminal.PushLines | src/app/components/MiniTerminal.tsx:154 | the screen becomes the old screen with every text pushed in order |
| MiniTerminal.Terminal.ShowOutput | src/app/components/MiniTerminal.tsx:112-167 | the screen becomes Screen of the old screen, command and outcome (the corrected banner handling, see Findings) |
| MiniTerminal.Terminal.ApplyEffect | src/app/components/MiniTerminal.tsx:157-164 | game opens the game window; exit schedules closing once |
| MiniTerminal.Terminal.Execute | src/app/components/MiniTerminal.tsx:108-167 | the command is appended to history, browsing is reset, and the screen and flags follow Dispatch of the parsed command |
| MiniTerminal.Terminal.RunCommand | src/app/components/MiniTerminal.tsx:104-168 | input that is blank after trimming changes nothing; otherwise the trimmed command is appended to history, browsing is reset, the screen becomes Screen of the dispatched outcome, and the game flag and close count follow its effect |
| MiniTerminal.Terminal.Submit | src/app/components/MiniTerminal.tsx:172-176 | Enter runs the input exactly as RunCommand does on the old input (blank: nothing changes; else recorded, echoed, dispatched, effect applied) and clears the input box |
| MiniTerminal.Terminal.KeyDown | src/app/components/MiniTerminal.tsx:171-208 | Enter runs the old input as RunCommand does and clears it; ArrowUp and ArrowDown move the history index by BrowseUp and BrowseDown and show that entry, or clear the input; with empty history, or on other keys, index and input are unchanged; keys other than Enter never touch screen, history, the game flag or the close count |
| MiniTerminal.Terminal.GameOver | src/app/components/MiniTerminal.tsx:268-271 | the game closes and the "Game Over" line with the decimal score is pushed |
| MiniTerminal.Terminal.GameClosed | src/app/components/MiniTerminal.tsx:267 | closing the game hides it |
| Strings.TrimStart | src/app/components/MiniTerminal.tsx:105 | the result is a suffix with only whitespace removed, and does not start with whitespace |
| Strings.TrimEnd | src/app/components/MiniTerminal.tsx:105 | the result is a prefix with only whitespace removed, and does not end with whitespace |
| Strings.Trim | src/app/components/MiniTerminal.tsx:105 | a trimmed string neither starts nor ends with whitespace |
| Strings.TrimEmptyIff | src/app/components/MiniTerminal.tsx:105-106 | the trimmed command is empty exactly when the input is all whitespace |
| Strings.TrimIsInfix | src/app/components/MiniTerminal.tsx:105-106 | trimming removes only whitespace, from both ends |
| Strings.TrimIdempotent | src/app/components/MiniTerminal.tsx:105-106 | trimming twice is trimming once |
| Strings.Lower | src/app/components/MiniTerminal.tsx:117 | lower-casing maps every character and keeps the length |
| Strings.Upper | src/app/components/MiniTerminal.tsx:320 | upper-casing maps every character and keeps the length |
| Strings.LowerIdempotent | src/app/components/MiniTerminal.tsx:117 | lower-casing twice is lower-casing once |
| Strings.Split | src/app/components/MiniTerminal.tsx:114 | splitting gives at least one part, and no part contains the separator |
| Strings.JoinSplit | src/app/components/MiniTerminal.tsx:114-115 | joining the parts of a split with the separator gives back the string |
| Strings.SplitHead | src/app/components/MiniTerminal.tsx:114-115 | the first part is the text before the first separator, or the whole string when there is none |
| Strings.JoinAppend | src/app/components/Navbar.tsx:65-67 | joining two non-empty lists is joining each and putting the separator between them |
| Strings.NatToString | src/app/components/MiniTerminal.tsx:270 | a natural renders as at least one digit, with no leading zero |
| Strings.NatToStringRoundTrip | src/app/components/MiniTerminal.tsx:270 | reading the rendered digits back gives the number |
| Strings.NatToStringInjective | src/app/components/CircleSwitcher.tsx:23 | different numbers render differently |
| JsMath.Round | src/app/components/games/DinoGame.tsx:72 | the result lies within half a unit of x, rounding halves up |
| JsMath.RoundOfInt | src/app/components/games/DinoGame.tsx:72 | rounding an integer gives it back |
| JsMath.RoundMonotone | src/app/components/games/DinoGame.tsx:152 | rounding is monotone |
| JsMath.RoundScaledDown | src/app/components/games/DinoGame.tsx:152 | scaling a natural by a factor in [0, 1] and rounding never exceeds it |
| JsMath.Rem | src/app/components/CertViewer.tsx:117-118 | the truncating remainder takes the sign of the dividend, is smaller than the divisor in size, leaves small values alone, and differs from the dividend by a multiple of the divisor |
| JsMath.ToFixed3 | src/app/components/CertViewer.tsx:44 | rounding to three decimals moves the value by at most 0.0005 and yields a whole number of thousandths |
| Desktop.PathOf | src/app/components/Desktop.tsx:42-50 | every window but home has a path under "~/home/rahulseervi/", and home's path is not under it (injectivity in PathOfInjective) |
| Desktop.PathOfInjective | src/app/components/Desktop.tsx:42-50 | different windows have different breadcrumb paths |
| Desktop.FirstOpen | src/app/components/Desktop.tsx:68-71 | the result is the first key of the order that is open, or None when none is open |
| Desktop.FirstOpenKey | src/app/components/Desktop.tsx:68-71 | a key found is open and never home (the None case in FirstOpenKeyFacts) |
| Desktop.FirstOpenKeyFacts | src/app/components/Desktop.tsx:68-71 | the first open key is never home, and there is none exactly when nothing but home is open |
| Desktop.OpenWin | src/app/components/Desktop.tsx:73-86 | opening home closes everything; opening another window adds it; either way the path becomes its path and the theme is kept |
| Desktop.OpenIdempotent | src/app/components/Desktop.tsx:73-86 | opening a window twice is opening it once |
| Desktop.OpenTouchesOnlyK | src/app/components/Desktop.tsx:80-84 | opening a window changes no other window's flag |
| Desktop.CloseWin | src/app/components/Desktop.tsx:88-95 | closing removes the window, and the path becomes that of the first window still open, or home |
| Desktop.CloseTouchesOnlyK | src/app/components/Desktop.tsx:89-90 | closing a window changes no other window's flag |
| Desktop.CloseLastGoesHome | src/app/components/Desktop.tsx:88-95 | closing the only open window returns the path to home |
| Desktop.CloseShowsOpenWindow | src/app/components/Desktop.tsx:88-95 | after closing, the path is home or the path of a window that is still open |
| Desktop.ResetToHome | src/app/components/Desktop.tsx:98-101 | resetting is the same as opening home |
| Desktop.ToggleTheme | src/app/components/Desktop.tsx:104-106 | the default scene switches to the alternative, and any other to the default |
| Desktop.ToggleTwice | src/app/components/Desktop.tsx:104-106 | toggling twice from either scene returns it |
| Desktop.HomeNeverOpen | src/app/components/Desktop.tsx:55-101 | no operation sets the home flag |
| Desktop.CoherentPreserved | src/app/components/Desktop.tsx:65-106 | every operation keeps home closed and the path either home or that of an open window |
| Desktop.InitialCoherent | src/app/components/Desktop.tsx:53-65 | the initial desktop satisfies that invariant |
| CertViewer.FitScale | src/app/components/CertViewer.tsx:34 | the fitting scale lies in [0, 1], makes the image fit the container in both directions, and is one of 1, cW/iW or cH/iH |
| CertViewer.FitImage | src/app/components/CertViewer.tsx:25-39 | with no image or a zero size nothing changes; otherwise scale fits, offset and rotation reset and the view is fitted |
| CertViewer.FitIdempotent | src/app/components/CertViewer.tsx:25-39 | fitting twice is fitting once |
| CertViewer.ZoomIn | src/app/components/CertViewer.tsx:110 | zooming in never goes above 8; when the rounded step stays within 8 it is the result, otherwise the result is 8; the result is within 0.0005 of the old scale plus 0.2 unless capped, and is a whole number of thousandths |
| CertViewer.ZoomOut | src/app/components/CertViewer.tsx:114 | zooming out never goes below 0.1; when the rounded step stays at or above 0.1 it is the result, otherwise the result is 0.1; the result is within 0.0005 of the old scale minus 0.2 unless floored, and is a whole number of thousandths |
| CertViewer.ToFixed3Exact | src/app/components/CertViewer.tsx:44 | a value with at most three decimals is unchanged by the rounding |
| CertViewer.ZoomInThenOut | src/app/components/CertViewer.tsx:109-116 | for three-decimal scales in [0.3, 7.8], zoom in then out gives back the scale |
| CertViewer.ZoomInButton | src/app/components/CertViewer.tsx:109-112 | the button zooms in and clears the fitted flag, changing nothing else |
| CertViewer.ZoomOutButton | src/app/components/CertViewer.tsx:113-116 | the button zooms out and clears the fitted flag, changing nothing else |
| CertViewer.RotateLeft | src/app/components/CertViewer.tsx:117 | the new angle lies strictly between −360 and 360 and is congruent to the old angle minus 90 modulo 360 |
| CertViewer.RotateRight | src/app/components/CertViewer.tsx:118 | the new angle lies strictly between −360 and 360 and is congruent to the old angle plus 90 modulo 360 |
| CertViewer.RightAngleCases | src/app/components/CertViewer.tsx:117-118 | a reachable rotation is one of −270, −180, −90, 0, 90, 180, 270 |
| CertViewer.RotationKeepsRightAngle | src/app/components/CertViewer.tsx:117-118 | rotating left or right keeps the angle a multiple of 90 in (−360, 360) |
| CertViewer.RightThenLeftCongruent | src/app/components/CertViewer.tsx:117-118 | right then left is congruent to the start modulo 360, and equal to it unless the start is 270 |
| CertViewer.RightThenLeftFrom270 | src/app/components/CertViewer.tsx:117-118 | from 270, right then left gives −90 |
| CertViewer.DoubleClick | src/app/components/CertViewer.tsx:100-107 | on a fitted view it doubles the scale up to 4 and unfits; otherwise it fits |
| CertViewer.DoubleClickTwice | src/app/components/CertViewer.tsx:100-107 | on a fitted, measurable view, two double-clicks end fitted again |
| CertViewer.FitButton | src/app/components/CertViewer.tsx:130 | the Fit button always leaves the view fitted, fitting it when the image is measurable |
| CertViewer.SourceChanged | src/app/components/CertViewer.tsx:56-60 | a new source resets offset and rotation, and fits when the image is measurable |
| CertViewer.ImageLoaded | src/app/components/CertViewer.tsx:157-159 | a load re-fits a fitted view and leaves an unfitted one alone |
| CertViewer.ImageLoadedStable | src/app/components/CertViewer.tsx:157-159 | a load changes neither a freshly fitted view nor one just zoomed with a button |
| CertViewer.OnKey | src/app/components/CertViewer.tsx:42-51 | Escape closes; + and = zoom in and − zooms out, keeping the fitted flag; 0 fits; arrows move the offset by 20 on one axis only; other keys change nothing |
| CertViewer.OppositeArrowsCancel | src/app/components/CertViewer.tsx:47-50 | opposite arrow keys cancel out |
| CertViewer.KeysKeepRightAngle | src/app/components/CertViewer.tsx:41-118 | no key, click or rotation leaves the set of reachable angles |
| CertViewer.DragOffset | src/app/components/CertViewer.tsx:77-79 | the offset moves by exactly the pointer's displacement from the drag start |
| CertViewer.DragThrough | src/app/components/CertViewer.tsx:77-79 | dragging through an intermediate point gives the same offset as dragging directly |
| CertViewer.Pan.constructor | src/app/components/CertViewer.tsx:23 | pan state starts idle at zero |
| CertViewer.Pan.PointerDown | src/app/components/CertViewer.tsx:66-74 | pressing records the start point and the current offset, and starts dragging |
| CertViewer.Pan.PointerMove | src/app/components/CertViewer.tsx:75-81 | while dragging, offset = base + displacement and the view is unfitted; otherwise the view is unchanged |
| CertViewer.Pan.PointerUp | src/app/components/CertViewer.tsx:82-87 | releasing stops dragging |
| CircleSwitcher.ProbeUrl | src/app/components/CircleSwitcher.tsx:23 | the URL lies in the profile directory and is longer than the directory, the dot and the extension together, so the number contributes at least one digit (injectivity in ProbeUrlInjective) |
| CircleSwitcher.ProbeUrlInjective | src/app/components/CircleSwitcher.tsx:23 | different number/extension pairs give different URLs |
| CircleSwitcher.FirstLoading | src/app/components/CircleSwitcher.tsx:22-31 | the result is the first extension whose URL loads, or None when none does |
| CircleSwitcher.HitFor | src/app/components/CircleSwitcher.tsx:20-36 | a hit for n records n |
| CircleSwitcher.HitsUpTo | src/app/components/CircleSwitcher.tsx:18-38 | there are at most m hits, each numbered in 1..m |
| CircleSwitcher.Urls | src/app/components/CircleSwitcher.tsx:23 | each hit becomes its probe URL, in order |
| CircleSwitcher.UrlsAppend | src/app/components/CircleSwitcher.tsx:28 | a new hit appends its URL |
| CircleSwitcher.HitsAreFirst | src/app/components/CircleSwitcher.tsx:22-31 | each hit uses the first extension that loads for its number |
| CircleSwitcher.HitsIncreasing | src/app/components/CircleSwitcher.tsx:20-36 | hits come in strictly increasing number order, so at most one per number |
| CircleSwitcher.HitsComplete | src/app/components/CircleSwitcher.tsx:18-38 | every number in range with a loading extension has a hit |
| CircleSwitcher.Detected | src/app/components/CircleSwitcher.tsx:18-38 | detection returns at most 10 URLs (distinctness in DetectedFacts, order and completeness in HitsIncreasing, HitsAreFirst and HitsComplete) |
| CircleSwitcher.DetectedFacts | src/app/components/CircleSwitcher.tsx:18-38 | detection finds at most 10 URLs, all different |
| CircleSwitcher.ProbeNumber | src/app/components/CircleSwitcher.tsx:21-35 | the inner loop finds a URL exactly when some extension loads, and it is the URL of the first such extension |
| CircleSwitcher.DetectProfileImages | src/app/components/CircleSwitcher.tsx:18-38 | the nested probing loop returns exactly Detected |
| CircleSwitcher.NextIdx | src/app/components/CircleSwitcher.tsx:70 | the next index wraps around within the list, and is 0 for an empty list |
| CircleSwitcher.IterateAdd | src/app/components/CircleSwitcher.tsx:77-80 | cycling a + b times is cycling a times and then b times |
| CircleSwitcher.IterateClimb | src/app/components/CircleSwitcher.tsx:77-80 | below the end, cycling k times adds k |
| CircleSwitcher.FullRound | src/app/components/CircleSwitcher.tsx:77-80 | cycling through the whole list returns to the start |
| CircleSwitcher.Switcher.constructor | src/app/components/CircleSwitcher.tsx:43-45 | the switcher starts on the fallback image at index 0 |
| CircleSwitcher.Switcher.Current | src/app/components/CircleSwitcher.tsx:89 | the current image is images[idx], or the fallback when idx is out of range |
| CircleSwitcher.Switcher.Cycle | src/app/components/CircleSwitcher.tsx:77-80 | cycling moves the index to NextIdx, which is always back in range, even from an index left out of range by an empty detection |
| CircleSwitcher.Switcher.KeyDown | src/app/components/CircleSwitcher.tsx:82-87 | Enter and space cycle; other keys change nothing |
| CircleSwitcher.Switcher.AfterDetection | src/app/components/CircleSwitcher.tsx:51-62 | the switcher stays usable either way: a non-empty result replaces the images and clamps the index to the last one; an empty result restores the fallback and keeps the index, and the fallback is then shown |
| Navbar.Breadcrumb | src/app/components/Navbar.tsx:65-67 | a path of at most three segments has an empty rest; a longer one has a "/" inside its base (reassembly in BreadcrumbReassembles) |
| Navbar.Segments | src/app/components/Navbar.tsx:65 | a path has at least one segment |
| Navbar.BreadcrumbReassembles | src/app/components/Navbar.tsx:65-67 | with more than three segments, base + "/" + rest is the path; otherwise the base is the path and rest is empty |
| Navbar.SplitThree | src/app/components/Navbar.tsx:65 | three slash-free parts joined by slashes split back into those parts |
| Navbar.DefaultPathIsBaseOnly | src/app/components/Navbar.tsx:17 | the default path has three segments, so rest is empty |
| Navbar.Render | src/app/components/Navbar.tsx:116-118 | the rest span is shown exactly when rest is non-empty; the button text starts with the base, and its trailing "/" is shown exactly when rest is non-empty |
| Navbar.RenderShowsPath | src/app/components/Navbar.tsx:116-118 | the rendered base and tail spell out the path |
| Navbar.Delta | src/app/components/Navbar.tsx:57 | the random step is −1, 0 or 1 |
| Navbar.DeltaCases | src/app/components/Navbar.tsx:57 | each third of the roll range gives one of −1, 0 and 1 |
| Navbar.NextLevel | src/app/components/Navbar.tsx:58 | the level stays in [5, 100], and from inside that range moves by at most 1 |
| Navbar.Battery.constructor | src/app/components/Navbar.tsx:54-55 | the battery starts at 82 |
| Navbar.Battery.Step | src/app/components/Navbar.tsx:56-60 | a step applies NextLevel and keeps the level in [5, 100] |
| Background.FileNames | src/app/components/background.tsx:26-38 | a theme names six layer files |
| Background.Entry | src/app/components/background.tsx:28-38 | a layer is present exactly when its file is non-empty, with url path + "/" + file and its z |
| Background.Layers | src/app/components/background.tsx:23-41 | a theme renders at most six layers, each one of its present candidates (order in LayersIncreasing) |
| Background.Candidates | src/app/components/background.tsx:26-39 | the i-th candidate is present exactly when the i-th file is non-empty, with url and z as the table gives |
| Background.Present | src/app/components/background.tsx:39 | filtering keeps exactly the present layers |
| Background.PresentCount | src/app/components/background.tsx:39 | the number of layers is the number of non-empty files |
| Background.LayerCount | src/app/components/background.tsx:26-39 | there are at most six layers |
| Background.LayerOrigin | src/app/components/background.tsx:26-39 | every layer comes from a non-empty file at its place in the table |
| Background.PresentIncreasing | src/app/components/background.tsx:39 | filtering keeps z strictly increasing |
| Background.LayersIncreasing | src/app/components/background.tsx:26-39 | the layers' z values strictly increase |
| Background.Clamp | src/app/components/background.tsx:71 | the clamp lies in [lo, hi] and leaves in-range values unchanged |
| Background.ClampIdempotent | src/app/components/background.tsx:71 | clamping twice is clamping once |
| Background.Tilt | src/app/components/background.tsx:74-78 | the tilt lies in [−6, 6] × [−4, 4], and is zero at the window centre |
| Background.LayerShift | src/app/components/background.tsx:79-82 | a layer's shift points the way the tilt does, on each axis: positive, negative or zero together with it |
| Background.Shifts | src/app/components/background.tsx:79-82 | each layer gets its own shift, in layer order |
| Background.ShiftBounds | src/app/components/background.tsx:79-82 | layer i shifts by at most 3·(i+1) horizontally and 2·(i+1) vertically |
| Background.ShiftGrowsWithDepth | src/app/components/background.tsx:79-82 | for a rightward tilt, deeper layers shift further |
| Background.ScrollSpeed | src/app/components/background.tsx:87-89 | speeds are positive, and 50 beyond the table |
| Background.SpeedsDecreasing | src/app/components/background.tsx:87 | the table's speeds strictly decrease from back to front |
| Background.FallbackSlowerThanFront | src/app/components/background.tsx:89 | the fallback speed is above the front layer's |
| Background.ScrollShift | src/app/components/background.tsx:90 | a non-negative offset gives a non-negative shift |
| Background.NearerScrollsFurther | src/app/components/background.tsx:85-90 | a nearer layer scrolls at least as far as a farther one |
| Background.Failed | src/app/components/background.tsx:55-62 | the error list holds exactly the URLs of layers that fail to load, at most one per layer, and each failing URL occurs as many times as there are layers with that URL |
| Background.AllLoadedNoOverlay | src/app/components/background.tsx:53-62 | when every layer loads, there are no errors and no overlay |
| Background.ErrorOverlay | src/app/components/background.tsx:129-134 | the overlay is absent without errors; otherwise it shows the title, the first four URLs and a "+n more…" line exactly when there are more than four |
| Layout.NormaliseBase | src/app/layout.tsx:25 | the normalised base ends with a slash; one that already did is unchanged; any other gets exactly one slash appended |
| Layout.NormaliseIdempotent | src/app/layout.tsx:25 | normalising twice is normalising once |
| Layout.NormaliseExtends | src/app/layout.tsx:25 | the base is a prefix of its normalisation |
| Layout.BaseRule | src/app/layout.tsx:17-26 | the emitted rule is ":root{--base:" + normalised base + " }" |
| Layout.UnsetIsRoot | src/app/layout.tsx:17 | an unset or empty variable gives "/" and the rule ":root{--base:/ }" |

## Left out

- Canvas drawing, sprite images, JSX markup and styling. Only the frame-index arithmetic and the choice between a sprite and a placeholder box are modelled.
- Timers, `requestAnimationFrame`, event listeners and React re-render mechanics.
  - A tick, a key press, a command and a pointer event are each one method call.
  - The 420 ms pacing of the boot lines is not modelled; `Terminal.constructor` builds the finished boot screen.
  - The 300 ms delay before the terminal closes is a counter of scheduled closes.
- The `alive` flags that ignore results after unmounting.
- Image loading is not modelled as events. It is a set of loaded sprite sheets in `DinoGame`, and a `loads` predicate on URLs in `CircleSwitcher` and `Background`. `CertViewer` takes the container and image sizes as an optional measurement.
- `Math.random` is a roll parameter. The background's star field (background.tsx:44-50) is random scenery and is not modelled.
- The `date` and `time` commands print strings passed in as parameters. `toLocaleDateString`, `toLocaleTimeString` and the Navbar clock are locale-dependent I/O.
- The AudioContext beep on each pushed line, auto-scrolling and input focus.
- The battery and calendar popup toggles in the navbar, and the preload of the next profile image (CircleSwitcher.tsx:69-75). Neither affects state the model tracks.
- The layout's font loading and page metadata.
- `Background.ScrollShift`: the `toFixed(2)` CSS formatting of the scroll position and the `+= 0.3` animation loop are not modelled. Only the pixel value for a given offset is, with the nearer-layer comparison proved separately.
- `Background.Failed`: the code collects failures as the image loads complete, so their order follows load completion. The model lists them in layer order.
- `Strings.Lower`, `Strings.Upper`: case mapping covers ASCII letters only.
- Floating point is replaced by exact rationals.
  - `toFixed(3)` is rounding to the nearest thousandth.
  - `DinoGame.FallN` and the jump lemmas use exact arithmetic. Browsers' binary floating point can differ in the last bits: the landing tick count is exact here.
- `DinoGame.Session.KeyDown`: the key handler does not check whether the game is still running, so after a collision a jump key can still change the dead player's fields. The model keeps this as written.
- `MiniTerminal.RenderBanner`: it takes the font as a parameter, so the loop is proved for any valid font. `Banner` applies it to the terminal's font table. Text is a sequence of characters, one glyph per character. The code splits with `split("")`, which yields UTF-16 code units, so a character outside the Basic Multilingual Plane (an emoji, say) becomes two unknown glyphs, 14 columns wide, in the code but one, 7 columns wide, in the model.
- `MiniTerminal.Banner`: the same one-glyph-per-character reading as `RenderBanner`; a banner of text with characters outside the Basic Multilingual Plane is narrower here than in the code.
- `MiniTerminal.Screen`: it is the corrected screen update, not the code's. Banner rows are appended as they are, so `banner I` shows five rows where the code shows three. The code's behaviour is `MiniTerminal.ScreenAsWritten`, with the collapse shown by `MiniTerminal.BannerRowsCollapseAsWritten`.
- `MiniTerminal.Terminal.ShowOutput`: uses the corrected `Screen`, so it shows every banner row where the code collapses equal neighbours (see `MiniTerminal.Screen`).
- `MiniTerminal.Terminal.Execute`: its screen is the corrected `Screen`, not the code's (see `MiniTerminal.Screen`).
- `MiniTerminal.Terminal.RunCommand`: its screen is the corrected `Screen`, not the code's (see `MiniTerminal.Screen`).
- `MiniTerminal.Terminal.Submit`: its screen is the corrected `Screen`, not the code's (see `MiniTerminal.Screen`).
- `MiniTerminal.Terminal.KeyDown`: on Enter its screen is the corrected `Screen`, not the code's (see `MiniTerminal.Screen`).

## Findings

| source | as written | input that shows it | evidently intended | confidence | as-written member | corrected member |
|---|---|---|---|---|---|---|
| src/app/components/MiniTerminal.tsx:154 | banner rows are pushed one by one through the de-duplicating `push`, so two equal consecutive rows collapse into one | `banner I`: the three equal stem rows of the I glyph become one, and three of five rows are shown | all five rows of the banner are shown, as `renderBanner` returns them | not executed | MiniTerminal.BannerRowsCollapseAsWritten | MiniTerminal.BannerShowsFiveRows |

The model keeps the code's behaviour as `ScreenAsWritten`. The corrected `MiniTerminal.Screen`, used by `Terminal.ShowOutput` and `Terminal.Execute`, appends banner rows as they are.
