# Five-dice new-year game: a Dafny model of the game session

The game shows five 3D dice, one per decimal place (ten-thousands, thousands,
hundreds, tens, units). The player clicks each die once. The die spins and
lands on a random face. Once all five have landed, the five values are read as
a five-digit red-envelope amount. This project models the logic of
`script.js` under that UI:

- **faces.dfy** (`Faces`): the face table (front 1 / back 6, right 2 / left 5,
  top 3 / bottom 4) and the lookup of the pose that shows a value.
- **dots.dfy** (`Dots`): `createDots`, the loop that writes a face's pip markup.
- **orientation.dfy** (`Orientation`): exact quarter-turn geometry of the CSS
  `rotateX(x) rotateY(y)` pose. It says which side of the cube faces the
  viewer. Coordinates are CSS's (x right, y down, z towards the viewer). Each
  side's outward normal points the way its name says.
- **spin.dfy** (`Spin`): the over-rotated pose a roll spins to, three or four
  extra turns either way, and why snapping back to the target pose keeps the
  orientation.
- **places.dfy** (`Places`): the remaining-dice count and hint, the every/reduce
  completion check, and the place-value amount with its decoding back to digits.
- **game.dfy** (`Game`): the session as a state machine over values. Its state
  is the five optional results, the busy flag and the roll animations still
  running. Steps are a click (`rollDice`), the end of an animation and a
  restart (`resetGame`). There are lemmas over single steps and over whole
  runs of events.
- **session.dfy** (`Session`): class `GameSession`, whose fields are the slots,
  the busy flag and the running animations. Its methods `StartRoll`,
  `FinishRoll` and `Reset` are each proved equal to the matching `Game`
  function.

Randomness is passed in as parameters within their drawn ranges: the value
`v` in 1..6, the directions `dirX`, `dirY` in {-1, 1}, and the extra turns
`kX`, `kY` in {3, 4}. `rollDice` is split into `StartRoll` (guard, commit,
start of animation) and `FinishRoll` (end of animation). Every animation lasts
1200 ms, so animations end in the order they started, and `FinishRoll` ends
the oldest one.

A restart does not cancel a running animation: nothing in `script.js` stops
it (lines 117-143, 256-258). When that animation ends, it clears `isRolling`
(line 137), even if a roll started after the restart is still running.
`Game.Reset` therefore keeps the running animations.
`Game.RestartDuringRollLetsTwoRollsOverlap` shows five events after which two
animations run at once. `Game.RunKeepsSerial` proves that at most one roll is
in flight in every run whose restarts happen while no roll is running.

## Model

| member | source | states |
|---|---|---|
| Faces.FaceValue | script.js:43-51 | every side carries a pip count in 1..6 |
| Faces.Opposite | script.js:43 | the opposite side is a different side |
| Faces.OppositeFacesSumToSeven | script.js:43-51 | front/back, right/left, top/bottom sum to 7; opposite is an involution |
| Faces.FaceValueIsBijective | script.js:44-51 | a count is painted on some side iff it is in 1..6, and on exactly one side |
| Faces.RotationForValue | script.js:68-80 | the lookup is defined exactly on 1..6 (undefined otherwise); angles are in {-90,0,90,180} and at most one axis turns |
| Faces.RotationForValueIsInjective | script.js:71-78 | distinct values get distinct poses |
| Dots.DotsMarkup | script.js:30-36 | n pips are n times the pip markup's length |
| Dots.DotsMarkupBlock | script.js:32-34 | block k of the markup is exactly one pip, for every k < n |
| Dots.DotsMarkupIsInjective | script.js:30-36 | the pip count can be read back from the markup |
| Dots.CreateDots | script.js:30-36 | the loop yields num pips, and none for num < 1 |
| Orientation.PoseShowsValue | script.js:68-79 | under the pose for v, a side faces the viewer iff it is painted with v (both directions, all six sides) |
| Orientation.QuarterTurnsPeriodic | script.js:111-115 | an angle plus whole turns is the same number of quarter turns |
| Orientation.TurnPeriodic | script.js:114-115 | poses that differ by whole turns move every vector alike |
| Spin.SpunAngle | script.js:107-115 | the final angle is 3 or 4 whole turns past the target, on the side given by the direction |
| Spin.SpunPose | script.js:114-115 | both axes of the final pose are spin offsets past the target |
| Spin.SnapKeepsOrientation | script.js:114-132 | the final spun pose and the snapped target pose point every vector the same way |
| Spin.SpunPoseShowsValue | script.js:96-132 | the spun pose for v also shows exactly the side painted with v |
| Places.AllRolled | script.js:162 | every slot is filled exactly when no slot is empty (`None` does not occur) |
| Places.Remaining | script.js:150 | the count of empty slots is at most the slot count, 0 iff every slot is filled, and the full count iff none is |
| Places.FillOneSlot | script.js:97 | filling an empty slot lowers the remaining count by exactly one |
| Places.DecimalText | script.js:154 | the count is written as a non-empty string of decimal digits that reads back as the count itself |
| Places.HintText | script.js:149-156 | the hint is empty iff all dice are rolled |
| Places.HintAfterThreeRolls | script.js:150-155 | with two dice left the hint reads "還剩 2 顆骰子，繼續點選吧！" |
| Places.Values | script.js:162-166 | once every slot is filled, the values are the slots' contents in order |
| Places.Decode | script.js:3 | an amount has five place digits |
| Places.PlaceSum | script.js:165-168 | with digit values the weighted sum fits in five places, and the places below the last die summed are zero |
| Places.PlaceSumOfFive | script.js:9 | the reduce is 10000·a + 1000·b + 100·c + 10·d + e |
| Places.DigitStep | script.js:9 | appending a digit shifts every digit up one place |
| Places.DecodeDigits | script.js:3 | five digits written side by side read back as the same five digits |
| Places.DecodePlaceSum | script.js:165-168 | decoding the amount gives back the five values when each is a digit |
| Places.PlaceSumIsInjective | script.js:165-168 | two different outcomes never give the same amount |
| Places.PlaceSumBounds | script.js:165-168 | with pips on every die the amount lies in 11111..66666 |
| Places.PlaceSumExample | script.js:9 | the dice 1, 2, 3, 4, 5 make 12345 |
| Places.CheckAllRolled | script.js:161-177 | a result exists iff every slot is filled; the breakdown pairs slot i's value with place label i |
| Places.RevealedTotalSpellsResults | script.js:161-168 | the revealed amount decodes to the five values and lies in 11111..66666 |
| Game.Accepts | script.js:87 | a click is accepted only while a die is left to roll, and in a serialised session only while no animation runs |
| Game.Roll | script.js:86-115 | the click changes nothing iff the slot is filled or a roll runs; an accepted one sets the busy flag, puts v in slot i, keeps the earlier animations and appends the one for die i with value v, its target pose and its spun pose, and leaves the other slots alone |
| Game.Finish | script.js:137 | the end of an animation clears the busy flag, drops that animation, keeps the slots |
| Game.Reset | script.js:256-258 | after a restart all five slots are empty and the busy flag is clear, whatever the prior state; running animations are kept |
| Game.InitialIsSerial | script.js:7-11 | the initial state is well formed and idle, with five dice to roll |
| Game.RollFillsOneSlot | script.js:96-97 | an accepted roll leaves one die fewer to roll |
| Game.BusyIgnoresClicks | script.js:87 | while a roll runs, a click on any die is a no-op |
| Game.OwnDieIgnoredWhileRolling | script.js:87-97 | after an accepted roll the die already holds its value, the flag is set, and a second click on it is a no-op |
| Game.RollKeepsSerial | script.js:87-97 | a click keeps at most one roll in flight |
| Game.FinishKeepsSerial | script.js:137 | the end of the only roll leaves the session idle and serialised |
| Game.LandingShowsValue | script.js:100-132 | the snapped pose shows exactly the committed value, and the last spun frame showed the same side |
| Game.Step | script.js:131-143 | every event keeps the state well formed |
| Game.Run | script.js:276-283 | every run of events keeps the state well formed |
| Game.RunKeepsSerial | script.js:87-137 | at most one roll is in flight throughout any run whose restarts happen while idle |
| Game.RunKeepsResolved | script.js:87 | without a restart a resolved die never changes value |
| Game.RestartDuringRollLetsTwoRollsOverlap | script.js:256-258 | from any idle state: click, restart, click, end of the first animation, click on another die leaves two animations running, the flag set, and the session not serialised |
| Game.ClickThenLand | script.js:86-139 | from an idle session, a click on an empty die and the end of its animation fill exactly that slot and leave the session idle |
| Game.InTurnFillsSlots | script.js:86-139 | rolling dice 0.. in turn, each with its own spin draws and waiting for each, fills their slots in order and leaves the session idle |
| Game.FiveRollsRevealAmount | script.js:161-168 | after five rolls with any spin draws, the hint is empty, the result is revealed, and its amount's digits are the five values |
| Session.GameSession.constructor | script.js:7-11 | a new session has five empty slots and is idle |
| Session.GameSession.StartRoll | script.js:86-115 | the new state is Game.Roll of the old one, and the method reports whether the guard accepted |
| Session.GameSession.FinishRoll | script.js:131-139 | the new state is Game.Finish of the old one; it returns the die, its snapped pose, the refreshed hint and the completion check |
| Session.GameSession.Reset | script.js:256-258 | the new state is Game.Reset of the old one |
| Session.RepeatedClickScenario | script.js:87-97 | die 0 is accepted, a second click during its animation is rejected, and its value stays after landing |

## Left out

- Everything the DOM does: element lookups, `classList` markers, `style.transform` writes, `innerHTML` (lines 14-23, 53-60, 93, 126-135, 172-177, 260-268). The face markup is modelled by `Dots`; where it goes on the page is not.
- The animation's frames: `requestAnimationFrame`, `performance.now()`, the 1200 ms duration and the ease-out-cubic curve on floating-point angles (lines 103-104, 117-129, 143). An animation is modelled only by its start and its end. The end pose is the spun pose reached at progress 1, then snapped.
- `Math.random`: its draws are parameters restricted to their ranges. Randomness itself is not modelled.
- The 500 ms delay and `toLocaleString` currency formatting of the revealed amount (lines 179-182). Both are timing and locale-dependent formatting.
- Screenshots, downloads, the clipboard, `alert`, `window.open` and the share text (lines 185-251). These are browser I/O and foreign libraries. The share text recomputes the same reduce as `PlaceSum`.
- The idle pose `rotateX(-20deg) rotateY(20deg)` and the initial hint text set by `resetGame` (lines 264, 269). They are display-only.
- Event binding and start-up (lines 273-283) appear only as the `Game.Event` runs.
- The layout of the cube faces in the stylesheet is not part of this model. `Orientation` assumes each side's normal points the way its name says.
