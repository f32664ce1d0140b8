# Pyxel Pong — a Dafny model of the game simulation

This project models the fixed-step simulation of the two-paddle game in
`pong.py`: the reset rule (`restart`), the keyboard handler
(`handle_key_input`), the right-paddle bot (`bot_move`), scoring, wall bounce
and paddle contact (`handle_ball_interactions`, `ball_speed_player_effect`)
and the integration step at the end of `update`. Everything is integer
valued, so the model is a record `State(score, paused, p1, p2, ball)` and
pure functions over it, composed into `Game.Tick` (one frame) and
`Game.Run` (a sequence of frames).

Modules, one per part of the program:

- `Arith` — Python's `abs`, `//` and `math.ceil` of an exact quotient, on integers.
- `Constants` — the board configuration (256×256 screen, ball size 3, paddle 5×50, speeds 4 and 5).
- `Entities` — paddles, ball, score, game state, sound cues, key snapshot, serve signs.
- `Sounds` — which sound slot each cue plays.
- `Reset` — `restart`.
- `Controls` — `handle_key_input`.
- `Bot` — `bot_move`.
- `Collisions` — `handle_ball_interactions` and `ball_speed_player_effect`.
- `Motion` — the integration step of `update`.
- `Game` — `update` as `Tick`, the start-up state, the reachable-state invariant `Valid`, runs of frames.

Details of the behaviour, as the code has them:

- The serve components are `(±5) // 2`, so each is `2` or `-3`; a serve is faster to the left and upward (`Reset.ServeAsymmetric`).
- The overlap test is strict at both ends of the paddle (`p.y < ball.y < p.y + 50`) and on both sides of the thickness band.
- A paddle moves only when `0 < y + vy < 206`, strict at both ends; paddles therefore live on 4, 8, …, 204.
- `bot_move` runs in every frame, paused or not, so the bot can change its paddle's velocity while the game is paused.
- After a point the game pauses with the ball behind the goal line, and the point check runs again in the next unpaused frame, so P without R scores the same point again (`Game.UnpauseAfterPointScoresAgain`).
- Inside the bot's dead zone the paddle keeps its old velocity, which need not be 0.
- The quit branch of `handle_key_input` returns before anything else; the rest of `update` is modelled as written, and `Run` stops after the frame that quits.
- The paddle bound uses `pyxel.width` for a vertical limit; the screen is square, so this makes no difference.

## Model

| member | source | states |
|---|---|---|
| Reset.ServeComponent | pong.py:35-36 | a serve component is 2 or -3, positive exactly when the drawn sign is +1 |
| Reset.Restart | pong.py:30-36 | restart unpauses, puts both paddles at y 128 with vy 0 in their columns 7 and 243, the ball at (113, 113) with each velocity component 2 or -3 signed by its draw, and keeps the score |
| Reset.RestartForgetsState | pong.py:30-36 | the restarted state depends on the old state only through its score |
| Reset.RestartIdempotent | pong.py:30-36 | restarting twice with the same draws equals restarting once |
| Reset.ServeAsymmetric | pong.py:35-36 | the positive serve is 2 and the negative serve is -3 |
| Sounds.SoundId | pong.py:38-50 | paused, p1, p2 and point cues get slots 0 to 3, and every slot is below 5 |
| Sounds.SharedSlot | pong.py:47-50 | two distinct cues share a sound slot exactly when they are quit and wall |
| Controls.Steer | pong.py:62-70 | a held down key sets speed +4 and wins over up; up alone sets -4; no key keeps the velocity |
| Controls.KeyInput | pong.py:52-70 | Q plays quit and changes nothing; otherwise R resets before P toggles pause and puts paddles and ball at their restart positions, only P plays a cue, the score never changes, positions change only through R, UP/DOWN steer p1, W/S steer p2 only without the bot |
| Controls.BotIgnoresWS | pong.py:66-70 | with the bot playing, the result is the same whatever W and S are |
| Bot.BotMove | pong.py:72-79 | the bot changes only the right paddle's vy; it acts only when enabled and the ball is at x >= 128; beyond the dead zone of 9 it heads toward the ball at speed 4; inside it nothing changes |
| Bot.BotKeepsSpeedLegal | pong.py:72-79 | the bot keeps the right paddle's velocity in {-4, 0, 4} |
| Collisions.SpeedEffect | pong.py:112-123 | the result is the ceiling of 5·abs(offset)/25, the least integer at or above it |
| Collisions.SpeedEffectIsFifth | pong.py:112-123 | the speed effect equals ceil(abs(offset) / 5) |
| Collisions.SpeedEffectZeroIffCentre | pong.py:112-123 | the speed effect is 0 exactly when the ball is level with the paddle's centre |
| Collisions.SpeedEffectMonotone | pong.py:112-123 | a larger distance from the centre never gives a smaller speed |
| Collisions.SpeedEffectSymmetric | pong.py:112-123 | equal distances above and below the centre give equal speeds |
| Collisions.SpeedEffectBounded | pong.py:103-123 | under the overlap guard the speed is at most 5, and is 5 exactly when the offset exceeds 20 |
| Collisions.ScorePoint | pong.py:85-93 | left-goal contact gives the right player a point and pauses; otherwise right-goal contact gives the left player a point and pauses; otherwise nothing changes; nothing but score and pause is touched |
| Collisions.WallBounce | pong.py:95-101 | wall contact keeps abs(vy), makes vy >= 0 at the ceiling and <= 0 at the floor, changes only vy, and plays one wall cue per wall touched |
| Collisions.PaddleBounce | pong.py:103-110 | left-paddle contact sets vx to the speed effect, right-paddle contact to its negation, only vx changes, and each contact plays its paddle's cue |
| Collisions.BallInteractions | pong.py:81-110 | paused: nothing changes; otherwise at most one side scores by one and pauses, walls keep abs(vy) with the right sign, paddles set vx >= 0 (left) or <= 0 (right), and positions and paddles are untouched |
| Collisions.InteractionCues | pong.py:81-110 | point, wall and paddle cues are played exactly when their events happen, and never pause or quit cues |
| Collisions.ContactsExclusive | pong.py:103-110 | with the paddles in columns 7 and 243 no ball touches both paddles in one frame |
| Collisions.ContactIsNotPoint | pong.py:86-110 | a ball touching a paddle is never past a goal line |
| Motion.MovePaddle | pong.py:131-133 | a paddle moves by vy only when the target lies strictly inside (0, 206), otherwise it stays put, and it never leaves that band |
| Motion.Integrate | pong.py:130-136 | paused: nothing changes; unpaused: the ball moves by exactly (vx, vy), each paddle follows the checked-move rule, keeps x and vy and stays in the band, score and pause are untouched |
| Motion.MovePaddleKeepsGrid | pong.py:131-133 | a paddle on the 4-pixel grid moving at speed 4 or 0 stays on the grid between 4 and 204 |
| Game.Tick | pong.py:125-136 | a frame adds at most one point to one side, a point pauses and plays the point cue, a paused game resumes only through P or R and a running one pauses only through P or a point, a scoring frame moves nothing, quit is reported, the bot never steers p1, and a paused frame without P or R keeps the ball and all positions |
| Game.Init | pong.py:17-27 | the start-up state has score 0:0, is not paused, is a fixed point of restart with the same draws (paddles and ball at their restart places) and satisfies the reachable-state invariant |
| Game.RestartIsValid | pong.py:30-36 | every restarted state satisfies the reachable-state invariant |
| Game.BallStaysOk | pong.py:95-136 | after interactions and integration the ball keeps abs(vx) <= 5, vy in {±2, ±3}, 0 < y < 256 and at most one step past a goal line |
| Game.TickPreservesValid | pong.py:125-136 | one frame, with any keys and draws, keeps the reachable-state invariant |
| Game.Run | pong.py:125-136 | over a run scores never go down, grow by at most one per frame, and the run reports quit exactly when some frame held Q |
| Game.RunPreservesValid | pong.py:125-136 | every run from a valid state ends in a valid state, so paddles never leave their band |
| Game.UnpauseAfterPointScoresAgain | pong.py:59-93 | pressing P after a left-goal point scores for the right player again and pauses again, without moving anything |
| Game.PointScenario | pong.py:86-93 | a ball at x 3 scores for the right player, pauses and plays only the point cue, and stays where it is |
| Game.CentreHitScenario | pong.py:103-106 | a centre hit on the left paddle sets vx to 0 and the ball then moves only vertically |
| Game.BotScenario | pong.py:72-79 | with the ball at (200, 50) and the bot's paddle centre at 177 the bot moves the paddle up by 4 |

## Left out

- Window and run-loop setup (`pyxel.init`, `pyxel.run`): engine calls; `Game.Run` stands in for the frame loop.
- Sound synthesis in `setup_sounds`: calls into the engine; only the cue-to-slot table is kept. The cue sequences the functions return are the cues passed to `pyxel.play`, in call order; since every call uses channel 0, a later cue in a frame cuts off an earlier one, which the model does not track.
- `draw` and `draw_score`: rendering only.
- Keyboard polling (`pyxel.btn`, `pyxel.btnp`): replaced by the `Keys` snapshot, with P as a just-pressed flag and the other keys as held flags.
- `pyxel.quit`: replaced by the `quit` flag of the frame result; whether the engine ends the process inside that call is engine behaviour.
- `random.choice` in `restart`: replaced by the caller-supplied `Serve` signs.
- Collisions.SpeedEffect: computes `ceil(5·|offset|/25)` on exact rationals rather than IEEE doubles; the call site only admits offsets with |offset| <= 24, where multiples of 5 yield exact quotients after rounding and every other offset sits at least 0.2 from an integer, so the float result is the same. Outside the guard the float behaviour is not modelled.
- Bot.BotMove: compares with the integer 25 instead of the float `HANDLE_HEIGHT / 2`; the values are equal and the other operands are small integers, so the comparisons agree.
- The commented-out logging in `ball_speed_player_effect`: it has no effect.
