# p5 sketches: the frame-driven state under the drawing

This project models, in Dafny, the small amount of state logic inside three p5.js sketches and
proves what that logic promises:

- **The jumping character** (`src/03_charactor.ts` and its second version
  `src/03_charactor/main.ts`). The jump timer is one integer, `jumpStartFrame`. `0` means idle.
  A click starts a jump only when the character is idle. Each frame computes the jump progress,
  ends the jump on the frame where progress reaches 1, and turns progress into a vertical offset
  with a two-branch easing rule split at progress 0.5.
- **The stars** of the same two sketches. There is a fixed field of stars. Each star rests at
  `pos`, or flies from `pos` to a target `moveingTo` (spelt `movingTo` here) started at
  `moveStartFrame`. When a flight completes, the target becomes the resting position. An idle
  star starts a new flight when its random draw is below 0.001. That can happen on the same
  frame as a completion.
- **The bubbles** (`src/02_bubble.ts`). Each frame runs three steps in order. It removes the
  bubbles that passed the top of the screen. It refills the population to `COUNT`. It moves
  every bubble up by its speed. A new bubble's size and speed come from one biased depth draw.
  Its position is at the cursor while the cursor moved recently, and below the bottom edge
  otherwise.

Files and modules:

| file | module | models |
|---|---|---|
| `p5.dfy` | `P5` | the p5 and `Math` calls whose values reach the state: `constrain`, `Math.min`, `map`, `random(min, max)`, `Vector.lerp` |
| `jump.dfy` | `Jump` | the jump timer (`drawChara`'s reset, `mouseClicked`) and the eased jump profile. The code is the same in both character sketches, so each sketch passes in its own progress rule and constants |
| `stars.dfy` | `Stars` | `StarState`, `addStar`, the state part of `drawStars` and the setup loop. The code is the same in both character sketches |
| `charactor.dfy` | `Charactor` | `src/03_charactor.ts`: `CharaState`, `drawChara`, `mouseClicked`, `setup`, `draw` |
| `charactor_main.dfy` | `CharactorMain` | `src/03_charactor/main.ts`: the same, with `JUMP_DUR = 80`, `JUMP_HEIGHT = 100`, `STAR_COUNT = 15` and `Math.min` in place of `constrain` |
| `bubble.dfy` | `Bubbles` | `src/02_bubble.ts`: `Bubble`, `addBubble`, `removeOutBubbles`, `updateBubbles`, the state part of `draw`, `mouseMoved` |

How the model is shaped:

- State that the sketches change in place is a class with the same fields:
  - `Charactor.Chara` holds `jumpStartFrame`.
  - `Stars.StarField` holds `starStates`.
  - `Bubbles.BubbleSketch` holds `bubbles` and `lastMouseMoved`.
- The arrays are `seq` fields. The methods reassign them the way the sketch does: a push, the
  `filter` result, or one element rewritten per step of a `forEach` loop.
- Each method is specified by pure functions of the old state, such as `Settled`, `StepStar`,
  `Visible`, `Spawns` and `Tick`. The properties are lemmas about those functions.
- The frame counter `p.frameCount` is an input to every frame operation. So are the cursor
  position and the canvas size.
- Every random draw is an input. It holds the raw value of `Math.random()` or of p5's generator,
  in [0, 1). `p.random(min, max)` is p5's formula applied to that value. A frame takes one draw
  per star, or one set of draws per new bubble, as a function from the index to the draw. This
  means no length has to match.
- The easing functions `expoOut`, `bounceOut` and `elasticInOut` are inputs too, of type
  `real -> real`. Their endpoint values appear only as `requires` of the lemmas that need them.
- Coordinates are `real`. The arithmetic is the sketch's own. For example, the cull test
  `b.pos.y * p.height + b.size >= 0` adds `size` to `y` in pixels, although `size` is a
  fraction of the canvas width (see `src/02_bubble.ts:22-24`). The comment at
  `src/02_bubble.ts:10` calls `size` pixels.
- The jump offset follows the code. It tests `progress < 0.5`, not the jump's duration.

Lines of `src/03_charactor/main.ts` that match the `Jump` and `Stars` rows cited from
`src/03_charactor.ts` below:

| in `src/03_charactor.ts` | in `src/03_charactor/main.ts` |
|---|---|
| 73-81 (timer reset) | 36-40 |
| 83-88 (eased profile) | 41-42 |
| 172-177 (`mouseClicked`) | 111-116 |
| 96-102 (`addStar`) | 47-53 |
| 105-147 (`drawStars`) | 55-89 |
| flight progress | 61 |
| completion | 65-69 |
| trail | 73-77 |
| start | 83-87 |

## Model

| member | source | states |
|---|---|---|
| `P5.Constrain` | src/03_charactor.ts:77 | `constrain` stays within [low, high]. It returns `n` inside the range, `low` below it and `high` above it |
| `P5.Min` | src/03_charactor/main.ts:37 | `Math.min` is no larger than either argument and equals one of them |
| `P5.Map` | src/02_bubble.ts:59-60 | `map` sends `start1` to `start2` and `stop1` to `stop2` |
| `P5.Random` | src/02_bubble.ts:52-54 | `random(min, max)` on a draw in [0, 1) lands in [min, max), with the bounds swapped when they are given in reverse |
| `P5.Lerp` | src/03_charactor.ts:118 | interpolating by 0 gives the start vector and by 1 gives the end vector |
| `Jump.SettledRule` | src/03_charactor.ts:75-81 | for a progress rule that reaches 1 exactly after `dur` frames, the reset leaves the timer at 0 exactly when it was idle or `dur` frames have elapsed. Otherwise it is unchanged |
| `Jump.ClickRule` | src/03_charactor.ts:172-177 | a click while jumping is a no-op. A click while idle sets the timer to the current frame, so a click at frame 0 leaves the character idle |
| `Jump.RunLast` | src/03_charactor.ts:73-81 | running one more frame applies one more frame step (reset, then the clicks) at the end |
| `Jump.IdleStaysIdle` | src/03_charactor.ts:73 | with no clicks, an idle character stays idle over any run of frames |
| `Jump.JumpLasts` | src/03_charactor.ts:73-81 | a jump started at `s` is in progress after every frame before `s + dur`, and clicks during it change nothing |
| `Jump.JumpEnds` | src/03_charactor.ts:75-81 | a jump started at `s` is over after frame `s + dur`, unless a click right after that frame starts the next one |
| `Jump.EasingArgumentInUnit` | src/03_charactor.ts:83-88 | for progress in [0, 1], the branch is `expoOut(2p)` below 0.5 and `1 - bounceOut(2(p - 0.5))` from 0.5 on. The easing always gets an argument in [0, 1] |
| `Jump.EasedJumpEndpoints` | src/03_charactor.ts:83-88 | given the easings' endpoint values, the profile is 0 at progress 0, 1 at 0.5 and 0 at 1 |
| `Jump.EasedJumpInUnit` | src/03_charactor.ts:83-88 | when both easings keep [0, 1] inside [0, 1], so does the profile |
| `Stars.NewStar` | src/03_charactor.ts:96-102 | a new star rests (no target, `moveStartFrame = 0`). From unit draws its position is in the unit square and `rotateSpeed` is in [-2, 2) |
| `Stars.NewStars` | src/03_charactor.ts:154-156 | the setup loop creates exactly `n` stars, the `i`-th from the `i`-th draws |
| `Stars.MoveProgress` | src/03_charactor.ts:112-116 | flight progress is in [0, 1]. It is 0 at or before the start frame, and it is 1 exactly when `STAR_MOVE_DUR` frames have elapsed |
| `Stars.Settle` | src/03_charactor.ts:121-125 | a flight that has lasted `STAR_MOVE_DUR` frames ends with the star at rest on the former target with `moveStartFrame = 0`. Any other star is unchanged. `rotateSpeed` is kept |
| `Stars.FlightContinues` | src/03_charactor.ts:111-145 | a flight that has not reached its duration leaves the star unchanged, whatever the draw. A flying star is never re-targeted |
| `Stars.FlightCompletes` | src/03_charactor.ts:121-145 | a flight that reaches its duration puts the star on the former target. The star then stays at rest, or, when the draw is below 0.001, starts a new flight on the same frame |
| `Stars.StartRule` | src/03_charactor.ts:142-145 | a flight starts exactly when the star is idle after the completion check and the draw is below 0.001. Starting sets `moveStartFrame` to the frame and sets the target, and nothing else |
| `Stars.StepKeepsRotateSpeed` | src/03_charactor.ts:100 | `rotateSpeed` never changes after `addStar` |
| `Stars.StepKeepsWellFormed` | src/03_charactor.ts:122-144 | the invariant "idle means `moveStartFrame = 0`, and a flight started no later than the current frame" is kept from frame to frame |
| `Stars.StepKeepsOnCanvas` | src/03_charactor.ts:123-144 | with targets drawn in the unit square, resting positions and targets stay in it |
| `Stars.TrailRule` | src/03_charactor.ts:119-134 | the trail is drawn exactly when the star is still flying after the completion check. Its alpha `(1 - progress) * 255` is then in (0, 255] |
| `Stars.ViewEndpoints` | src/03_charactor.ts:117-118 | given `elasticInOut(0) = 0` and `elasticInOut(1) = 1`, a flying star is drawn at its resting position at progress 0, and on the target (the new resting position) at progress 1 |
| `Stars.FlightLasts` | src/03_charactor.ts:111-125 | over any run of frames before `moveStartFrame + STAR_MOVE_DUR`, a flying star is unchanged, whatever is drawn |
| `Stars.FlightLands` | src/03_charactor.ts:112-125 | from any frame of a flight, after frame `moveStartFrame + STAR_MOVE_DUR` the star's resting position is the former target |
| `Stars.RunKeepsWellFormed` | src/03_charactor.ts:106-146 | the star invariant holds after every frame of any run |
| `Stars.StarField.constructor` | src/03_charactor.ts:52 | `starStates` starts empty |
| `Stars.StarField.AddStar` | src/03_charactor.ts:96-102 | `addStar` appends one new resting star |
| `Stars.StarField.AddStars` | src/03_charactor.ts:154-156 | the setup loop appends `NewStars(draws, count)` |
| `Stars.StarField.DrawStars` | src/03_charactor.ts:105-147 | `drawStars` keeps the number of stars. Star `i` becomes `StepStar` of its old state, and what is drawn for it is `View` of its old state |
| `Charactor.Progress` | src/03_charactor.ts:77 | jump progress is in [0, 1]. It is 1 exactly when `frameCount - jumpStartFrame >= JUMP_DUR`, and it is `elapsed / JUMP_DUR` within the jump |
| `Charactor.ProgressEndsAfterDur` | src/03_charactor.ts:77-79 | this sketch's progress reaches 1 exactly after `JUMP_DUR` (120) frames, so the `Jump` timer lemmas apply to it |
| `Charactor.Settled` | src/03_charactor.ts:75-81 | after `drawChara` the timer is 0 exactly when it was idle or `JUMP_DUR` frames have elapsed. Otherwise it is unchanged |
| `Charactor.JumpYRule` | src/03_charactor.ts:71-90 | `jumpY` is 0 when idle. It is `expoOut(2e / JUMP_DUR) * JUMP_HEIGHT` over the first half of the jump and `(1 - bounceOut(2e / JUMP_DUR - 1)) * JUMP_HEIGHT` over the second half |
| `Charactor.JumpStartsAndEndsOnGround` | src/03_charactor.ts:83-89 | given the easings' endpoint values, `jumpY` is 0 on the start frame and on the frame the jump ends |
| `Charactor.JumpYBounds` | src/03_charactor.ts:83-89 | when the easings keep [0, 1] inside [0, 1], `jumpY` is in [0, `JUMP_HEIGHT`] |
| `Charactor.JumpLasts` | src/03_charactor.ts:73-81 | a jump started at `s` is in progress after each of its first `JUMP_DUR` (120) frames, and clicks during it change nothing |
| `Charactor.JumpEnds` | src/03_charactor.ts:75-81 | a jump started at `s` is over after frame `s + JUMP_DUR` (`s + 120`), unless a click right after that frame starts the next one |
| `Charactor.Chara.constructor` | src/03_charactor.ts:49-51 | the character starts idle |
| `Charactor.Chara.DrawChara` | src/03_charactor.ts:67-93 | `drawChara` returns `JumpY` of the old timer and leaves the timer at `Settled` |
| `Charactor.Chara.MouseClicked` | src/03_charactor.ts:172-177 | `mouseClicked` leaves the timer at `Jump.Clicked` of the old one: it keeps a running jump and otherwise starts one at the current frame |
| `Charactor.Sketch.constructor` | src/03_charactor.ts:48-52 | the sketch starts with an idle character and no stars |
| `Charactor.Sketch.Setup` | src/03_charactor.ts:150-157 | `setup` appends `STAR_COUNT` (12) new stars, so an empty field has exactly 12 stars afterwards |
| `Charactor.Sketch.Draw` | src/03_charactor.ts:160-169 | `draw` runs `drawStars` and then `drawChara`, with the effects stated for each |
| `CharactorMain.Progress` | src/03_charactor/main.ts:37 | progress is `min(elapsed / JUMP_DUR, 1)`. It never exceeds 1 and is 1 exactly when `elapsed >= JUMP_DUR`. With no lower clamp it is negative exactly when `elapsed` is |
| `CharactorMain.ProgressEndsAfterDur` | src/03_charactor/main.ts:37-38 | this sketch's progress reaches 1 exactly after `JUMP_DUR` (80) frames, so the `Jump` timer lemmas apply to it |
| `CharactorMain.Settled` | src/03_charactor/main.ts:37-40 | the timer resets to 0 exactly when progress reaches 1, that is when `JUMP_DUR` (80) frames have elapsed |
| `CharactorMain.JumpYRule` | src/03_charactor/main.ts:35-42 | `jumpY` is 0 when idle, and the same two-branch eased value times `JUMP_HEIGHT` (100) otherwise |
| `CharactorMain.JumpStartsAndEndsOnGround` | src/03_charactor/main.ts:41-42 | given the easings' endpoint values, `jumpY` is 0 on the start frame and on the landing frame |
| `CharactorMain.JumpYBounds` | src/03_charactor/main.ts:41-42 | from the start frame on, `jumpY` is in [0, `JUMP_HEIGHT`] when the easings keep [0, 1] inside [0, 1] |
| `CharactorMain.JumpLasts` | src/03_charactor/main.ts:36-40 | a jump is in progress after each of its first `JUMP_DUR` (80) frames, and clicks during it change nothing |
| `CharactorMain.JumpEnds` | src/03_charactor/main.ts:37-40 | a jump is over after frame `s + JUMP_DUR` (`s + 80`), unless a click right after that frame starts the next one |
| `CharactorMain.Chara.constructor` | src/03_charactor/main.ts:27-29 | the character starts idle |
| `CharactorMain.Chara.DrawChara` | src/03_charactor/main.ts:34-45 | `drawChara` returns `JumpY` of the old timer and leaves the timer at `Settled` |
| `CharactorMain.Chara.MouseClicked` | src/03_charactor/main.ts:111-116 | `mouseClicked` leaves the timer at `Jump.Clicked` of the old one: it keeps a running jump and otherwise starts one at the current frame |
| `CharactorMain.Sketch.constructor` | src/03_charactor/main.ts:27-31 | the sketch starts with an idle character and no stars |
| `CharactorMain.Sketch.Setup` | src/03_charactor/main.ts:91-97 | `setup` appends `STAR_COUNT` (15) new stars, so an empty field has exactly 15 stars afterwards |
| `CharactorMain.Sketch.Draw` | src/03_charactor/main.ts:99-109 | `draw` runs `drawStars` and then `drawChara` |
| `Bubbles.ZDist` | src/02_bubble.ts:47 | the depth `random() ** 3` is in [0, 1) and never above the draw. Draws of 0 and 1 give depths 0 and 1 |
| `Bubbles.Spawn` | src/02_bubble.ts:44-63 | a bottom spawn has `y = 1.2` and `x` equal to its draw. With draws in [0, 1), a cursor spawn has `x` and `y` within 0.05 of the normalised cursor position, size is in [MINSIZE, MAXSIZE) and speed is in [MINSPEED, MAXSPEED). The bubble is filled exactly when its draw exceeds 0.5 |
| `Bubbles.Spawns` | src/02_bubble.ts:106-108 | `n` calls of `addBubble` give exactly `n` bubbles, the `i`-th from the `i`-th draws |
| `Bubbles.Visible` | src/02_bubble.ts:67 | the filter keeps only bubbles with `pos.y * height + size >= 0`, keeps every such bubble, and never lengthens the array |
| `Bubbles.DepthMapEndpoints` | src/02_bubble.ts:59-60 | depth 0 gives size 0.005 and speed 0.005. Depth 1 gives size 0.2 and speed 0.02 |
| `Bubbles.DepthMapMonotone` | src/02_bubble.ts:59-60 | size and speed both grow strictly with depth |
| `Bubbles.DepthMapRange` | src/02_bubble.ts:59-60 | a depth in [0, 1] gives a size in [MINSIZE, MAXSIZE] and a speed in [MINSPEED, MAXSPEED] |
| `Bubbles.SpeedFollowsSize` | src/02_bubble.ts:59-60 | size and speed are linear in the same depth, so speed is an affine function of size |
| `Bubbles.CursorWindow` | src/02_bubble.ts:49 | cursor spawning is used exactly while `frameCount < lastMouseMoved + 120`. With the initial `lastMouseMoved = -120` it is used on no frame from 0 on |
| `Bubbles.VisibleAppend` | src/02_bubble.ts:67 | the filter distributes over concatenation, so the kept bubbles stay in their original order |
| `Bubbles.VisibleSingle` | src/02_bubble.ts:67 | one bubble is kept exactly when it meets the filter condition |
| `Bubbles.VisibleIdempotent` | src/02_bubble.ts:67 | filtering twice is the same as filtering once |
| `Bubbles.RiseRule` | src/02_bubble.ts:72-74 | moving a bubble lowers `pos.y` by its speed and keeps `x`, `size`, `speed` and `isFill` |
| `Bubbles.TickPopulation` | src/02_bubble.ts:105-108 | after a frame there are exactly `COUNT` bubbles, starting from any population of at most `COUNT` |
| `Bubbles.TickOrder` | src/02_bubble.ts:105-110 | after a frame come the survivors in their old order, then the new bubbles in creation order. Each of them, new ones included, has moved exactly once |
| `Bubbles.BubbleSketch.constructor` | src/02_bubble.ts:36-38 | no bubbles, and `lastMouseMoved = -120` |
| `Bubbles.BubbleSketch.AddBubble` | src/02_bubble.ts:44-63 | `addBubble` appends `Spawn` and changes nothing else |
| `Bubbles.BubbleSketch.RemoveOutBubbles` | src/02_bubble.ts:66-68 | `removeOutBubbles` replaces the array by the filtered one |
| `Bubbles.BubbleSketch.Refill` | src/02_bubble.ts:106-108 | the refill loop appends exactly `COUNT - n` new bubbles to `n < COUNT` bubbles and none otherwise, leaving at least `COUNT` |
| `Bubbles.BubbleSketch.UpdateBubbles` | src/02_bubble.ts:71-75 | `updateBubbles` moves every bubble once and keeps the array length |
| `Bubbles.BubbleSketch.Draw` | src/02_bubble.ts:101-112 | `draw` removes, refills and moves, in that order, which is `Tick`. From at most `COUNT` bubbles it ends with exactly `COUNT` |
| `Bubbles.BubbleSketch.MouseMoved` | src/02_bubble.ts:114-116 | `mouseMoved` sets `lastMouseMoved` to the current frame and leaves the bubbles alone |

## Left out

- All rendering is left out. That covers images, circles, lines, transforms, `push`/`pop`, blend modes, colours, canvas creation and resizing, and `drawEarth`. The model keeps only the values these calls receive from the state: the character's `jumpY`, and a star's display position and trail.
- A star's rotation `frameCount * rotateSpeed` is a transform and is left out. `rotateSpeed` itself is modelled.
- Image loading and the SVG imports are left out: they are I/O.
- The easing functions `expoOut`, `bounceOut` and `elasticInOut` are library code that is not part of this model. They are parameters, and facts about them (such as endpoint values) appear only as lemma `requires`.
- Randomness (`Math.random`, `p.random`) is left out as a source: each draw is a parameter. The order in which the sketch consumes draws is not modelled. Examples: `Math.random()` in a star's start test is called only for an idle star, and the bottom spawn makes no `y` draw.
- Perlin noise (`p.noise`) is left out. It only jitters a bubble's drawn `x` and never reaches the state.
- Floating-point rounding is not modelled: coordinates are exact reals.
- `Bubbles.Spawn`: the cursor branch divides by the canvas size. So spawning at the cursor assumes a canvas of non-zero width and height. JavaScript would give `Infinity`/`NaN` there, and that is not modelled.
- `src/01_lineart.ts` is not part of this model. Its state is one scalar scaled by 0.995 per frame.
- `console.log` (`src/03_charactor/main.ts:86`) and the window-resize handlers are left out. Neither affects the state.
- The host's frame loop is left out. The model takes the frame counter as an input, not as a clock it advances. The many-frame lemmas (`Jump.Run` and `Stars.Run`) feed it consecutive frames.
