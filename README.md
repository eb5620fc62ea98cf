# Table tennis: the per-frame game logic

This project models the core of a browser table-tennis game (`index.js`) in
Dafny. Two paddles and a ball move on a table of width `w` and height `h`.
Player 1 moves the left paddle with W/S and with the mouse in both modes, and
also with the arrow keys in one-player mode. The right paddle belongs to an AI in one-player
mode and to the arrow keys in two-player mode. A ball that leaves the table
past one side is a point for the other side. The first side to 7 points wins,
and the winner's score is kept as the high score when it is higher.

The project has four modules:

- `Geometry` (`geometry.dfy`) holds the fixed sizes of ball and paddles, the
  `clamp` helper and the axis-aligned overlap test of ball and paddle.
- `Rules` (`rules.dfy`) holds the game record `State`. It has the fields of
  the original's `state` object with three differences:
  - `paddleSpeed` is never reassigned, so it is the constant `PADDLE_SPEED`;
  - `animFrameId` is left out, since it concerns scheduling;
  - two fields are added: `winner`, the name `checkGameOver` computes for the
    game-over banner (a local there), and `storedHighScore`, the value kept in
    local storage.

  `Rules` also holds one function per operation of the original, in the
  original's order of steps. These functions are the specification of the
  engine.
- `Properties` (`properties.dfy`) has lemmas relating the operations. They
  cover key routing, the AI, scoring, match end, the pause lifecycle and a
  record invariant over whole sessions of events.
- `Engine` (`engine.dfy`) holds the class `Game`. Its fields are the game
  record, and it has one method per operation, each with `modifies this`. Every
  such method is proved to leave the record equal to the matching `Rules`
  function of the record it started from
  (`Snapshot() == Rules.X(old(Snapshot()), …)`). The lifecycle and frame
  methods also keep `Valid()`, the record invariant `Rules.Consistent`.
- `Engine.Game` also has eight field-group helpers, `PlaceBall` to
  `SetRunFlags`. They model no operation of their own. Each writes two related
  fields and is proved against the plain record update. The operations are
  built from them so that each proof stays small.

Positions and velocities are real numbers, and scores are integers.

Table width and height are parameters of each operation that reads them,
because the original queries them live on every frame.

Trigonometry and randomness arrive as values of type `Turn`, a cosine and a
sine. These are the random serve angle in `resetBall` and the deflection angle
in `deflectBall`. `Turn.Valid()` says that the pair is a unit vector with a
positive cosine. Every angle the original can produce lies strictly between -90
and 90 degrees (see `Geometry.OffsetWithinOverlap`). A frame receives the three
turns it may need as one `Trig` value.

`deflectBall` measures the old speed as `Math.sqrt(dx*dx + dy*dy)`. The model
uses `currentSpeed` instead. The invariant `SpeedInvariant` says that
`currentSpeed` is exactly the length of `(dx, dy)`. `Consistent`
requires it only while a match runs, and every operation preserves
`Consistent`. So during play the two values are the same. The point that ends
a match breaks `SpeedInvariant`: the code resets `currentSpeed` to `ballSpeed`
(`index.js:315`, `index.js:323`), and `checkGameOver` leaves `dx` and `dy` as
they were. The next `startGame` serves afresh and restores it.

Three places where the code's behaviour differs from its own comments or an
obvious reading:

- The comment at `index.js:316` says the serve goes "toward loser". The code
  calls `resetBall(1)` after player 2 scores, which serves toward player 2,
  the side that scored. Likewise it calls `resetBall(-1)` after player 1
  scores. The model follows the code (`Properties.ServeTowardScorer`).
- The comment at `index.js:557` says mouse control is for one-player mode.
  The mousemove handler (`index.js:560-570`) has no mode test, so the mouse
  moves paddle 1 in two-player mode too. The model follows the code
  (`Properties.MouseInTwoPlayer`).
- The AI's tracking step is not overshoot-free, on any preset. It moves a
  reaction share of the distance plus a step of up to `aiSpeed`, so a paddle
  within `aiSpeed` of its target always passes it
  (`Properties.AiOvershootsNearTarget`). On easy, a paddle at 4 with target 8
  ends at 10 (`Properties.AiOvershootsOnEasy`). On hard (`aiReaction` = 1) it
  moves the whole distance and then up to `aiSpeed` further
  (`Properties.AiOvershootsOnHard`). The model follows the code.

## Model

| member | source | states |
|---|---|---|
| `Geometry.Clamp` | index.js:602-604 | The result is at least `lo`, and at most `hi` when `lo <= hi`. It equals `val` when `val` is in range, `lo` below the range, `hi` above it, and `lo` when the range is empty. |
| `Geometry.CollisionIffSharedPoint` | index.js:255-262 | The four strict comparisons hold exactly when the open ball box and the open paddle box share a point. |
| `Geometry.OffsetWithinOverlap` | index.js:332-338 | While ball and paddle overlap, the contact offset lies strictly inside (-1.2, 1.2), so the deflection angle stays strictly inside (-72, 72) degrees. |
| `Geometry.OffsetCanExceedOne` | index.js:335 | The offset is not confined to the "-1 to +1" of the comment: an overlapping ball can have offset 1.175. |
| `Rules.PresetOf` | index.js:55-59 | Each difficulty preset has positive ball and AI speeds and a reaction factor in (0, 1]. |
| `Rules.KeyStep` | index.js:369-383 | For one up key and one down key: both held or neither held gives 0, up alone gives -6, down alone gives +6. |
| `Rules.MoveAI` | index.js:396-415 | moveAI changes only `paddle2Y` and `aiTargetY`. `paddle2Y` becomes the AI step. The target is kept while the ball moves away. |
| `Rules.MovePaddles` | index.js:364-388 | After a paddle move both paddles lie in `[0, h - 80]` when `h >= 80`. Only the two paddle heights and the AI target change. |
| `Rules.MouseMove` | index.js:560-570 | The mouse handler changes only `paddle1Y`. It changes anything only while a match runs unpaused and the pointer is over the left 60% of the table. In that case, in either mode, `paddle1Y` becomes the pointer height minus half a paddle, clamped to `[0, h - 80]`. |
| `Rules.ResetBall` | index.js:196-206 | The ball is centred and the rally count is 0. For a unit turn and positive speed, `dx` is nonzero with the sign of `direction`, and `currentSpeed` is the length of the new velocity. Nothing else changes. |
| `Rules.ResetPaddles` | index.js:209-213 | Both paddles are at the vertical centre, and nothing else changes. |
| `Rules.Integrate` | index.js:269-271 | Moving the ball by its velocity keeps `currentSpeed` equal to the velocity's length. |
| `Rules.WallStep` | index.js:273-282 | A ball at or above the top goes to 0 with `dy >= 0`. A ball at or below the bottom goes to `h - 16` with `dy <= 0`. Otherwise the height and `dy` are unchanged. `dy` only changes sign, and the height ends in `[0, h - 16]` when `h >= 16`. |
| `Rules.WallBounce` | index.js:273-282 | The wall bounce changes only `ballY` and `dy`, and keeps the speed invariant. |
| `Rules.Deflect` | index.js:332-349 | A deflection adds 0.3 to the speed and 1 to the rally count. For a unit turn it keeps the speed invariant and the sign of `dx`. Only velocity, speed and rally count change. |
| `Rules.LeftPaddle` | index.js:284-294 | An overlap with the left paddle is resolved only while `dx < 0`. The ball then sits at x = 26 without overlap, moves right, and is 0.3 faster, with one more rally hit. Otherwise nothing changes. |
| `Rules.RightPaddle` | index.js:296-306 | An overlap with the right paddle is resolved only while `dx > 0`. The ball then sits at x = `w - 42` without overlap, moves left, and is 0.3 faster, with one more rally hit. Otherwise nothing changes. |
| `Rules.AfterPaddles` | index.js:266-306 | Integration, wall bounce and both paddle checks change only the ball, speed and rally count, and keep the speed invariant. |
| `Rules.SaveHighScore` | index.js:172-177 | The new high score is the larger of the old one and `score`, and storage stays in step. |
| `Rules.EndMatch` | index.js:419-437 | A match end stops play. The high score becomes the maximum of the old high score and both scores. Only `running`, the winner and the high score change. |
| `Properties.TwoPlayerPaddle1IgnoresArrows` | index.js:369-383 | In two-player mode paddle 1's new height depends on W/S only: changing any other key leaves it the same. |
| `Properties.TwoPlayerPaddle2IgnoresWs` | index.js:380-387 | In two-player mode paddle 2's new height depends on the arrow keys only. |
| `Properties.OnePlayerPaddle2IgnoresKeys` | index.js:372-387 | In one-player mode no key affects paddle 2. Its new height is the clamped AI step. |
| `Properties.WsKeyRouting` | index.js:369-370 | A lone W or w moves paddle 1 up by 6 and a lone S or s moves it down by 6, before the clamp, in both modes. In two-player mode paddle 2 keeps its height. |
| `Properties.ArrowKeyRouting` | index.js:372-383 | A lone ArrowUp or ArrowDown moves paddle 1 by 6 in one-player mode. In two-player mode it moves paddle 2 by 6 and leaves paddle 1 alone, before the clamp. |
| `Properties.OppositeKeysCancel` | index.js:369-383 | With W and S and both arrows held, paddle 1 does not move before the clamp, and neither does paddle 2 in two-player mode. |
| `Properties.AiNeverMovesAway` | index.js:396-415 | While the ball approaches, the AI moves toward its target, or stays put when on target. While the ball recedes, it drifts toward the centre without passing it. |
| `Properties.AiOvershootsNearTarget` | index.js:403-409 | While the ball approaches, with any positive reaction factor, a paddle within `aiSpeed` of its target ends strictly past it, from either side. |
| `Properties.AiOvershootsOnEasy` | index.js:403-409 | On the easy preset, a paddle at 4 with target 8 ends at 10. |
| `Properties.AiOvershootsOnHard` | index.js:403-409 | On the hard preset, a paddle 10 pixels from its target ends 10 pixels past it. |
| `Properties.MoveBallScoring` | index.js:309-325 | In one ball step, `p2Score` rises by 1 exactly when the ball ends at or past the left edge. `p1Score` rises by 1 exactly when it ends at or past the right edge instead. A point resets `currentSpeed` to `ballSpeed`. Without a point nothing else changes, and the scores' sum rises by at most 1. |
| `Properties.ServeTowardScorer` | index.js:309-325 | After a point that does not end the match, the ball restarts from the centre with a fresh rally and moves toward the side that scored. |
| `Properties.ScoringPreservesConsistent` | index.js:309-325 | The scoring step keeps the record invariant and never lowers the high score. |
| `Properties.GameLoopPreservesConsistent` | index.js:460-468 | A frame keeps the record invariant: both scores below 7 while play runs, and the speed equal to the velocity's length. It never lowers the high score. |
| `Properties.MatchEndsAtSeven` | index.js:419-437 | A running frame leaves play running exactly when both scores are below 7. A finished match has top score exactly 7 and names PLAYER 1 exactly when player 1 has 7, else CPU or PLAYER 2 by mode. Its high score is the larger of the old one and 7. A frame that does not end the match keeps the high score. |
| `Properties.FrameKeepsPaddlesOnTable` | index.js:460-468 | After every running frame on a table at least 80 high, both paddles lie in `[0, h - 80]`. |
| `Properties.StoppedOrPausedFrameIsNoOp` | index.js:461 | A frame changes nothing while the match is stopped or paused. |
| `Properties.PauseResumeNeedRunning` | index.js:510-520 | Pause and resume change nothing when no match runs. |
| `Properties.PauseResumeRoundTrip` | index.js:510-522 | Pausing a running match makes frames no-ops, and resuming restores the record. |
| `Properties.EscapeTogglesPause` | index.js:537-545 | Escape marks itself held and flips `paused` exactly when a match runs. Two presses restore `paused`. |
| `Properties.PlainKeyDown` | index.js:537-545 | A key press other than Escape only marks that key held. |
| `Properties.MouseInTwoPlayer` | index.js:560-570 | In two-player mode too, a pointer over the left 60% of a running, unpaused table sets paddle 1 to the clamped pointer height. |
| `Properties.KeyUpReleases` | index.js:552-554 | The keyup handler releases exactly the released key. |
| `Properties.StartGameResets` | index.js:484-508 | Starting a match keeps the invariant and sets play running and unpaused, with the selected mode and difficulty. It zeroes scores and rally, empties the held keys, loads the preset's speeds, centres the paddles, serves rightward and keeps the high score. |
| `Properties.QuitKeepsHighScore` | index.js:524-531 | Quitting stops play, keeps the invariant and, since storage is in step, keeps the high score. |
| `Properties.ApplyPreservesConsistent` | index.js:460-570 | Every frame, button, key or mouse event keeps the record invariant and never lowers the high score. |
| `Properties.SessionInvariant` | index.js:460-570 | Over any sequence of events the record invariant holds and the high score never decreases. |
| `Properties.StraightFlight` | index.js:266-271 | A mid-table ball with velocity (5, 0) just moves 5 pixels right. |
| `Properties.PlayerOneWinsSevenThree` | index.js:318-325 | At 6-3, player 1's point past the right edge ends the match 7-3 for PLAYER 1, and the high score 5 becomes 7. |
| `Engine.Game.constructor` | index.js:64-102 | The fields start as the `state` literal declares them, with the high score read from storage, and the invariant holds. |
| `Engine.Game.LoadHighScore` | index.js:166-170 | loadHighScore computes `Rules.LoadHighScore`: the high score comes back from storage. |
| `Engine.Game.SaveHighScore` | index.js:172-177 | saveHighScore computes `Rules.SaveHighScore`. |
| `Engine.Game.ResetBall` | index.js:196-206 | resetBall computes `Rules.ResetBall`. |
| `Engine.Game.ResetPaddles` | index.js:209-213 | resetPaddles computes `Rules.ResetPaddles`. |
| `Engine.Game.ResetGame` | index.js:216-229 | resetGame computes `Rules.ResetGame`: preset loaded, scores, rally and keys cleared, paddles reset, serve to the right. |
| `Engine.Game.CheckGameOver` | index.js:419-437 | checkGameOver returns true exactly when a score reached 7. It then ends the match as `Rules.EndMatch`, and otherwise changes nothing. |
| `Engine.Game.Deflect` | index.js:332-349 | deflectBall computes `Rules.Deflect`. |
| `Engine.Game.BounceOffWalls` | index.js:273-282 | The wall bounce of moveBall computes `Rules.WallBounce`. |
| `Engine.Game.HitLeftPaddle` | index.js:284-294 | The left-paddle check of moveBall computes `Rules.LeftPaddle`. |
| `Engine.Game.HitRightPaddle` | index.js:296-306 | The right-paddle check of moveBall computes `Rules.RightPaddle`. |
| `Engine.Game.CheckScore` | index.js:308-325 | The scoring check of moveBall computes `Rules.Scoring`. |
| `Engine.Game.MoveBall` | index.js:266-326 | moveBall computes `Rules.MoveBall`: integration, walls, paddles, then scoring. |
| `Engine.Game.MoveAI` | index.js:396-415 | moveAI computes `Rules.MoveAI`. |
| `Engine.Game.MovePaddles` | index.js:364-388 | movePaddles computes `Rules.MovePaddles`. |
| `Engine.Game.GameLoop` | index.js:460-468 | One frame computes `Rules.GameLoop` and keeps the invariant. |
| `Engine.Game.StartGame` | index.js:484-508 | startGame with the two toggle selections computes `Rules.StartGame` and keeps the invariant. |
| `Engine.Game.PauseGame` | index.js:510-514 | pauseGame computes `Rules.PauseGame` and keeps the invariant. |
| `Engine.Game.ResumeGame` | index.js:516-522 | resumeGame computes `Rules.ResumeGame` and keeps the invariant. |
| `Engine.Game.QuitToMenu` | index.js:524-531 | quitToMenu computes `Rules.QuitToMenu` and keeps the invariant. |
| `Engine.Game.KeyDown` | index.js:537-550 | The keydown handler computes `Rules.KeyDown` and keeps the invariant. |
| `Engine.Game.KeyUp` | index.js:552-554 | The keyup handler computes `Rules.KeyUp` and keeps the invariant. |
| `Engine.Game.MouseMove` | index.js:560-570 | The mousemove handler computes `Rules.MouseMove` and keeps the invariant. |

## Left out

- DOM lookups, HUD text, score flashes, overlays, toggle buttons and rendering
  are user-interface output with no effect on the game record.
  `getToggleValue` returning null, when no toggle is active, is not modelled:
  mode and difficulty are always one of the declared values.
- Audio (`beep`, the `sound*` functions and their timers) is foreign output
  and is left out.
- `requestAnimationFrame` and `cancelAnimationFrame` scheduling is left out.
  One call of `Engine.Game.GameLoop` is one frame, and `animFrameId` is not a
  field.
- Local storage is the field `storedHighScore`. Reading it (`loadHighScore`)
  copies it into `highScore`. The string conversion and `parseInt` are not
  modelled, and a missing entry is the initial value 0 passed to the
  constructor.
- Floating point is modelled as exact real arithmetic, so rounding in the
  position, AI and speed updates is not captured.
- `Math.random`, `Math.cos` and `Math.sin` are not computed. Their results
  arrive as `Turn` values. The model does not tie a deflection's turn to the
  contact offset, nor a serve's turn to the range -30 to 30 degrees. It only
  requires a unit vector with a positive cosine, which every such angle gives.
- Rules.Deflect: uses `currentSpeed` where the original computes
  `Math.sqrt(dx*dx + dy*dy)`. The two agree whenever `SpeedInvariant` holds,
  which `Rules.Consistent` guarantees during play. Outside play the model does
  not say what the square root would give.
- The table size and, for the mouse handler, the table's bounding rectangle
  are parameters. `getTableRect` and `getBoundingClientRect` are not modelled.
- `ensureAudio` on start and the keyboard `preventDefault` calls have no
  effect on the game record and are left out.
