# WebGame.js and its Tetris demo, modelled in Dafny

WebGame.js is a small 2D game framework for the HTML5 canvas. A `WebGame`
object drives a game loop. A timer calls `frame` every `frameDelay`
milliseconds. Each frame measures the time since the previous one and clamps
it to two frame delays. It adds that time to an accumulator and runs the
current controller's `update` once per whole `updateDelay` the accumulator
holds. Then it computes the interpolation factor `alpha` and calls the
controller's `draw` once. The object also keeps:

- the set of pressed keys, looked up by name through a table of key codes;
- the mouse button state;
- a cache of loaded images.

The Tetris demo runs on this loop. A 20 by 10 grid holds shape indices, with 0
for an empty cell. A single-cell piece falls one row every second update and
freezes into the grid when it lands. Then the next piece takes its place, and
the game stops when the spawn cell is filled. `p` pauses and resumes the game
and `q` goes back to the title screen.

The project has three modules:

- `Timing` (`timing.dfy`) states the timing rule as pure functions.
  - `Clamp` caps a frame's delay.
  - `UpdatesDue` counts how many update steps fit in a budget.
  - `Accumulate` is one frame's update phase.
  - `RunFrames` folds `Accumulate` over a run of frames.
  - Lemmas show that the accumulator stays in `[0, updateDelay)`. A run of unclamped frames performs exactly floor((accumulator + elapsed time) / updateDelay) updates.
- `WebGame` (`webgame.dfy`) is the `WebGame` class. Its fields are updated in place by `SetController`, `Run`, `Stop`, `SetFrameRate`, `SetUpdateRate`, `Frame`, `HandleKeyEvent`, `HandleMouseEvent` and `LoadImage`. `Frame` is a `while` loop proved against `Accumulate`. `GetController`, `IsRunning` and `MouseDown` are plain queries that return a field.
- `Tetris` (`tetris.dfy`) models:
  - the `Tetromino` class;
  - the `PlayController` class, which owns the grid as an `array2<int>` filled by nested loops;
  - the title screen's two callbacks, `TitleWakeUp` and `TitleKeyEvent`.

The environment is passed in as parameters:

- The clock (`new Date().getTime()`) is the `now: int` parameter of `Run`, `SetFrameRate`, `Frame` and the controller methods.
- `Math.random()` is a `draw: real` parameter in `[0, 1)`.
- The interval timer is the `running` flag. `loopHandle != null` in the source becomes `running` in the model.
- A controller is a `Controller` value: the set of callbacks it defines (`WakeUp`, `Update`, `Draw`, `KeyEvent`, `MouseEvent`, `MouseMoveEvent`).
- The loop does not call back into controllers. Instead, its methods report which callbacks were due:
  - `SetController` returns `wokeUp`;
  - `Frame` returns the update counts its update calls observe, whether it drew, and the `alpha` it passed;
  - the handlers return `forwarded`.

  The Tetris controllers take the `WebGame` object and call its methods themselves, as the demo's global `webgame` does.

## Model

| member | source | states |
|---|---|---|
| Timing.Clamp | src/webgame.js:125-127 | The delay added is at most the raw delay and at most twice the frame delay, and equals one of the two (the minimum). |
| Timing.UpdatesDue | src/webgame.js:134-139 | The number of update steps for a budget: none below one step; for a non-negative budget, n steps fit and n + 1 do not. |
| Timing.UpdatesDueUnique | src/webgame.js:134-139 | That count is the only k with k steps fitting in the budget and k + 1 not. |
| Timing.Accumulate | src/webgame.js:124-139 | One frame's update phase conserves time: remaining accumulator plus steps times updateDelay equals the old accumulator plus the clamped delay. The remainder is below one step, and it is not negative once a step ran. |
| Timing.AccumulateIsDetermined | src/webgame.js:134-139 | Any split of the budget with those three properties is the one the update loop computes. |
| Timing.AccumulatorStaysInRange | src/webgame.js:132-139 | From an accumulator in [0, updateDelay) and a non-negative raw delay, the accumulator stays in [0, updateDelay). |
| Timing.StallIsClamped | src/webgame.js:125-139 | A one-second stall with delays 20 ms / 10 ms runs 4 updates, not 100, and leaves the accumulator at 0. |
| Timing.RunFrames | src/webgame.js:116-139 | Frames at successive timestamps fold the update phase; after at least one frame the accumulator is below one step. |
| Timing.ElapsedTimeIsConsumed | src/webgame.js:116-139 | Over a run in which no frame is clamped and the clock does not go backwards, the starting accumulator plus the elapsed time splits into the updates run and a rest in [0, updateDelay). |
| Timing.OneMoreFrame | src/webgame.js:127-139 | One more unclamped frame extends that split by the frame's delay. |
| Timing.ConsumedIsFloor | src/webgame.js:134-139 | Such a split takes exactly `UpdatesDue` steps and leaves the budget minus those steps. |
| Timing.FramesRunElapsedUpdates | src/webgame.js:116-139 | Over such a run the total update count is floor((accumulator + elapsed) / updateDelay). |
| WebGame.WebGame.constructor | src/webgame.js:46-54 | A new loop is stopped and has no controller. Delays are 20 ms and 10 ms. Counters and the accumulator are 0. No keys are pressed, the mouse is up and the cache is empty. |
| WebGame.WebGame.SetController | src/webgame.js:60-67 | The controller is replaced, and its wakeUp is due exactly when it has one. |
| WebGame.WebGame.Run | src/webgame.js:95-105 | Afterwards the loop runs. A running loop is left as it was; a stopped one measures its next frame from `now`. |
| WebGame.WebGame.Stop | src/webgame.js:107-111 | Afterwards the loop is stopped and `IsRunning` is false, whatever its state before; nothing else changes. |
| WebGame.WebGame.IsRunning | src/webgame.js:90-93 | The loop counts as running iff its interval timer is set; `Run` makes it true and `Stop` false. |
| WebGame.WebGame.GetController | src/webgame.js:69-72 | Returns the current controller, the one whose callbacks the loop reports as due; `SetController` makes it the one set. |
| WebGame.WebGame.MouseDown | src/webgame.js:277-280 | The button reads as down iff the last mouse event was a press; `HandleMouseEvent` sets it. |
| WebGame.WebGame.SetFrameRate | src/webgame.js:74-83 | A rate <= 0 changes nothing. A positive rate sets frameDelay = 1000 / fps, keeps the running state, and restarts a running loop from `now`. |
| WebGame.WebGame.SetUpdateRate | src/webgame.js:85-88 | Sets updateDelay = 1000 / rate and nothing else. |
| WebGame.WebGame.Frame | src/webgame.js:113-153 | Records the raw delay in lastDelay and `now` in frameTime, and adds one frame. Draw is called iff the controller has one. With an update: updates rise by `Accumulate`'s step count, each update call sees the count before it, the accumulator becomes `Accumulate`'s remainder, and alpha = accumulator / updateDelay lies in [0, 1) when the accumulator was in range and time did not go back. Without an update: alpha is not applicable, and the accumulator and updates do not change. |
| WebGame.WebGame.HandleKeyEvent | src/webgame.js:205-222 | A press records the key code and a release removes it. Every named key reads as pressed iff it has this code and was pressed, or has another code and read as pressed before. The event is forwarded iff the controller has keyEvent. |
| WebGame.WebGame.HandleMouseEvent | src/webgame.js:225-231 | The mouse state, and so `MouseDown`, becomes the pressed flag; the event is forwarded iff the controller has mouseEvent. |
| WebGame.WebGame.KeyPressed | src/webgame.js:272-275 | A key name reads as pressed iff it is in the key table (lines 161-167) and its code is recorded as pressed. |
| WebGame.WebGame.LoadImage | src/webgame.js:300-317 | A cached path returns its image and leaves the cache alone. A new path returns a fresh image for that path, and only that path is added to the cache. |
| WebGame.LoadImageTwice | src/webgame.js:300-317 | Loading the same path twice returns the same image, and the cache gains at most that one path. |
| Tetris.ShapeIndex | tests/tetris.js:17-32 | A random draw picks a shape index in 1..7, never the empty shape 0. |
| Tetris.ShapeIndexSlices | tests/tetris.js:28-32 | Shape k is picked exactly by the draws in [(k-1)/7, k/7), so the seven pieces are equally likely. |
| Tetris.Tetromino.constructor | tests/tetris.js:9-13 | A piece with the given position and shape. |
| Tetris.Tetromino.Random | tests/tetris.js:28-32 | A fresh piece at the given position whose shape is the draw's shape index, in 1..7. |
| Tetris.Tetromino.Fall | tests/tetris.js:68-71 | The piece moves one row down; x and the shape do not change. |
| Tetris.Tetromino.Collision | tests/tetris.js:73-76 | The piece has landed when it is on the bottom row or the cell below it is filled. When it has not landed, the row below exists and its cell is empty, so the grid is only read inside its bounds. |
| Tetris.Tetromino.Freeze | tests/tetris.js:78-81 | The piece's cell holds its shape index and no other grid cell changes. |
| Tetris.TitleWakeUp | tests/tetris.js:95-98 | The title screen runs at one frame per second, with the running state kept. |
| Tetris.TitleKeyEvent | tests/tetris.js:100-107 | Enter, pressed or released, makes a fresh play controller in its start state the controller of the loop, woken up to 50 ms delays, with the running state kept and a running loop restarted from `now`. Any other key changes nothing. |
| Tetris.PlayController.constructor | tests/tetris.js:128-233 | A new play controller is in the start state `Init` sets up. |
| Tetris.PlayController.Init | tests/tetris.js:135-161 | The grid is a fresh 20 by 10 grid of zeros and the game is not paused. The current piece is at (5, 1) and the next piece at (8, 1), each with its draw's shape. |
| Tetris.PlayController.WakeUp | tests/tetris.js:163-167 | Frame and update delays both become 50 ms (20 per second), with the running state kept. |
| Tetris.PlayController.KeyEvent | tests/tetris.js:174-195 | Releases and other keys change nothing. q makes the title screen the controller, woken up to one frame per second; a running loop is restarted from `now`. p flips `paused`: the loop runs after p iff the game was paused before. A loop resumed from a stop measures from `now`; otherwise the frame time is kept. |
| Tetris.PlayController.Update | tests/tetris.js:213-230 | The piece falls one row iff the loop's update count is even. When it then rests on the floor or on a filled cell, its shape is written into its cell and the next piece becomes current at (5, 1). A fresh next piece is drawn, and the loop is stopped iff cell (1, 5) is filled. Otherwise only the current piece moves; the waiting piece and the running state stay as they were. The grid keeps every other cell, and the play-state invariant holds afterwards. |

## Left out

- Browser wiring is left out:
  - the `WebGame` constructor's canvas and context lookup and its exceptions (src/webgame.js:12-36);
  - the `catch*` event registration (src/webgame.js:176-203);
  - `preventDefault` for the arrow keys;
  - `handleMouseMove`'s page and offset arithmetic (src/webgame.js:234-270).
- Timers and the clock are left out. `setInterval`/`clearInterval` become the `running` flag, and the current time is a parameter.
- Run: the extra frame that `run` schedules with `setTimeout(…, 0)` is not modelled. A caller that wants it calls `Frame` after `Run`.
- All drawing is left out: the canvas `save`/`restore`, the controllers' `draw`, `Tetromino.draw` and `drawBlock`, the pause overlay, and the title text. `Frame` only reports whether draw was due and the alpha it would receive.
- `loadingImage` depends on the browser's `Image.complete` and is left out. `loadAudio` is an empty stub. The demo's `clearLines` is an empty function and is not modelled.
- Floating point is not modelled. Delays are mathematical reals, so `1000 / fps` has no IEEE rounding, and `accumulator -= dt` accumulates no rounding error.
- SetUpdateRate: requires a non-zero rate, because the source divides by it without a guard and `Infinity` is not a real. A negative rate is accepted, as in the source.
- Frame: requires a positive update delay when the controller has an update. With an update delay of 0 or less, the source's update loop runs forever once the accumulator reaches the update delay. Below that point the source runs no update and passes a ratio to draw (for example 2, with a rate of -20 and a clock that went back 100 ms). The model does not cover either case.
- LoadImage: the cache is modelled as a plain map from path to image. The source's cache is an object literal (src/webgame.js:286), and its lookup (src/webgame.js:305) also finds the names every object inherits. So in the source `loadImage("toString")`, `loadImage("constructor")` or `loadImage("__proto__")` returns an inherited member and caches nothing, where the model makes and caches a fresh image.
- `keyStates` and `imageCache` are object literals on `WebGame.prototype`, so the source shares them between all instances. They are modelled as fields of each `WebGame` object.
- The demo's `map`, `tetromino` and `nextTetromino` are variables shared by the whole demo. They are modelled as fields of `PlayController`. The demo's `score`, `gameOver` and `difficulty` are set by `init` and never used.
- Controllers are compared by the set of callbacks they define, not by object identity.
- The update's `dt` argument is not passed to `PlayController.Update`, which ignores it in the source.
- The source does not put any loop state back to its defaults when the loop stops or the frame rate changes. The model follows the code: `Stop` changes only `running`, and `SetFrameRate` changes only `frameDelay` and, for a running loop, `frameTime`.
