# Platformer movement and collision, modelled in Dafny

This project models the per-frame movement core of a small pygame platformer.

**The current player (`__main__.py`).** One frame does the following, in order:

- `Player.collision` adds gravity and splits the frame's velocity into `max_speed` one-pixel sub-steps.
- After each sub-step it asks every obstacle, in list order, whether the player's mask now overlaps it. The first obstacle that does is handled: the sub-step is undone, `find_non_collision` backs the player out, and `try_direction` probes the four sides. The four-slot `collide` list (left, right, top, bottom) then records the sides that are in contact and that the player was heading toward.
- Every obstacle's `touched` flag is set, and `deal_with_collision` zeroes the blocked velocity components and resets the fall counter on landing.
- `Player.loop` applies friction, clamps the fall speed, picks the animation frame (`update_sprite`) and runs the hit timer, which ends in a `respawn`.
- `keys` dispatches on what the player touches: a spike counts a hit, a goal advances the level and respawns, a bounce pad bounces and counts the bounce. It then applies the held keys.
- `Bouncepad.loop` plays the pad's animation.
- `scroll` and `center` move the camera.

**The two early iterations (`platformer.py`, `plat2.py`).** A free body over a ground line at y = 600, with `m_move`, `m_left`, `m_right`, `keylink` and `loop`.

Modules:

- `Pixels` — collision masks as sets of pixels, overlap of two placed masks, and the rounding pygame's `Rect` applies to fractional coordinates.
- `Steering` — the "accelerate by AGILITY up to a top speed" rule shared by every version.
- `Physics` — the constants of `__main__.py` and the per-frame rules as pure functions: friction, terminal velocity, gravity, the sub-step count, `deal_with_collision`, the hit timer, the sprite-sheet choice, bounce velocities and the bounce-pad animation.
- `Resolution` — the collision resolver as a pure function over an indexed snapshot of the obstacles. `SubStep` covers one sub-step and `Resolve` the whole sweep.
- `World` — obstacles as a class, with `Bouncepad.loop` as a method. The player's kinematic state is a value (`Kin`). The module holds the pure specifications of `collision` (`Collided`), of respawning, of the `keys` dispatch and held keys, and of `scroll` and `center`.
- `Game` — the imperative `Player` class: `collision` with its nested helpers, `loop`, `respawn` and `update_sprite`, each proved against the specifications above. It also holds the imperative `keys` procedure.
- `Early` — the early player class and its pure specification `Tick`.

The model follows the code where it and the design notes differ:

- The `break` at `__main__.py:257` leaves only the obstacle loop, so sub-stepping goes on after a hit.
- A bounce pad bounces whatever side touches it.
- `__main__.py:372` parses as `K_LEFT or (K_a and not collide[0])`, so the left arrow moves the player even against a wall.
- `keylink` resets a misspelt field `x_vel`, so `xvel` is never reset there.

## Model

| member | source | states |
|---|---|---|
| Pixels.Abs | __main__.py:241 | the result is non-negative and equals the argument or its negation |
| Pixels.Sign | __main__.py:241 | the heading `abs(i) / i if i else 0`: 0 exactly for zero, 1 exactly for positive, -1 exactly for negative |
| Pixels.Ceil | __main__.py:230 | `ceil`: the least integer not below the argument |
| Pixels.Trunc | __main__.py:191-193 | pygame's Rect stores a fractional coordinate by dropping the fraction toward zero: the result has the argument's sign and lies within one of it |
| Pixels.ShiftWhole | __main__.py:191-193 | `add_incr` by a whole number of pixels moves exactly that far |
| Pixels.ShiftUndoInexact | __main__.py:244-249 | adding a fractional increment and then subtracting it need not return to the start pixel |
| Pixels.OverlapsSymmetric | __main__.py:202-203 | mask collision does not depend on which of the two sprites is asked |
| Pixels.OverlapsTranslate | __main__.py:202-203 | moving both sprites by the same amount does not change whether they collide |
| Pixels.EmptyMaskNeverOverlaps | __main__.py:202-203 | an empty mask collides with nothing |
| Steering.SteerLeft | __main__.py:375 | the speed never drops below `-top`; it is `-top` or lowered by exactly `agility`, and never raised from within the range |
| Steering.SteerRight | __main__.py:379 | the mirror image: never above `top`, `top` or raised by exactly `agility` |
| Steering.SteerMirror | __main__.py:372-379 | steering right is steering left with the sign flipped |
| Steering.HoldingLeftReachesTop | __main__.py:375 | holding left for n frames from a speed within `n * agility` of `-top` reaches exactly `-top` |
| Steering.SteerLeftStaysAtTop | __main__.py:375 | once at `-top`, holding left keeps the speed at `-top` |
| Physics.ApplyFriction | __main__.py:166-172 | friction never speeds the player up and never flips the direction, and it stops the player exactly when the speed is at most FRICTION |
| Physics.FrictionRestIsFixed | __main__.py:166-172 | a player at rest stays at rest under friction |
| Physics.FrictionMonotone | __main__.py:166-172 | the speed never grows from one frame of friction to the next |
| Physics.FrictionSettles | __main__.py:166-172 | with no input, a speed of at most `n * FRICTION / 2` is zero after n frames |
| Physics.ClampTerminal | __main__.py:174-177 | the vertical speed ends within ±TERMINALVEL, in-range speeds are untouched, and the sign is kept |
| Physics.Fall | __main__.py:227-229 | standing on a floor adds no gravity; otherwise gravity adds `(fallcount / FPS) * GRAVITY`, which raises the player because GRAVITY is negative |
| Physics.GroundedMeansTop | __main__.py:222 | with GRAVITY < 0 the player counts as grounded exactly when something is in the top slot of `collide` |
| Physics.MaxSpeed | __main__.py:230-231 | the sub-step count is zero exactly at rest, bounds both speeds, and is the least integer that does |
| Physics.SubStepIsAtMostOnePixel | __main__.py:238 | each sub-step increment is at most one pixel on each axis |
| Physics.Deal | __main__.py:218-225 | a side contact zeroes the horizontal speed and otherwise keeps it; a top or bottom contact zeroes the vertical speed; the fall counter resets exactly when grounded |
| Physics.DealIdempotent | __main__.py:218-225 | dealing with the same contacts twice changes nothing more |
| Physics.DealStopsBlockedAxis | __main__.py:218-225 | contacts on both axes stop the player |
| Physics.HitTick | __main__.py:181-185 | the hit timer counts up once started, stays 0 when idle, and is reset to 0 when it signals a respawn |
| Physics.HitRespawnsAfterEleven | __main__.py:181-185 | at 60 fps a started hit timer reaches 11 and the next frame respawns (`60 * 0.15 + 2 = 11`) |
| Physics.SheetFor | __main__.py:128-137 | the "hit" sheet shows exactly when hit, the "jump" sheet exactly when unhit and rising |
| Physics.RunAndIdleUnreachable | __main__.py:128-137 | with GRAVITY = -20 the "run" and "idle" sheets are never chosen: an unhit player that is not rising always shows "fall" |
| Physics.BounceAlongFace | __main__.py:360-369 | a pad at 0, 90, 180 or 270 degrees sets one velocity component to ±BOUNCE_STRENGTH along its face and keeps the other |
| Physics.BounceOtherAngles | __main__.py:360-369 | a pad at any other angle leaves the velocity unchanged |
| Physics.BounceVelocity | __main__.py:360-369 | a pad at 0 or 180 degrees keeps the horizontal speed and sets the vertical one to ±BOUNCE_STRENGTH; at 90 or 270 the reverse; at any other angle nothing changes |
| Physics.PadTick | __main__.py:329-339 | the shown frame is always a valid index; a pad that is bouncing counts one more frame, and any other pad is reset to the last frame |
| Physics.PadSettles | __main__.py:329-339 | after a bounded number of frames every pad is at rest again |
| Physics.PadAnimBounded | __main__.py:333-336 | the animation counter stays within `0..2 * len(sprites) + 2` |
| Resolution.FirstHit | __main__.py:245-248 | the obstacle handled in a sub-step is the first in list order whose mask overlaps the player; none is returned exactly when no obstacle overlaps |
| Resolution.Hits | __main__.py:202-203 | a layer is never hit, and an empty mask on either side hits nothing |
| Resolution.AllowedMeaning | __main__.py:241-254 | a side is recorded only when the player heads toward it or is still on that axis |
| Resolution.Contacts | __main__.py:251-256 | the new `collide` names the hit obstacle on exactly the sides where a one-pixel probe overlaps it and the heading allows it, and nothing elsewhere |
| Resolution.OppositeSidesNeedRest | __main__.py:251-256 | both opposite sides of an axis can be recorded only when the player is still on that axis |
| Resolution.BackOff | __main__.py:205-211 | backing out by the increment, when it succeeds, ends clear of the obstacle |
| Resolution.StepUp | __main__.py:212-216 | the upward fallback stays in the column and rises at most `max_speed` pixels, ending clear unless it used them all |
| Resolution.Unstick | __main__.py:205-216 | `find_non_collision`: when backing off along the increment finds a clear place the player ends clear of the obstacle; otherwise it keeps its column and rises at most `max_speed` pixels |
| Resolution.UnstickFreeIsIdentity | __main__.py:205-216 | `find_non_collision` leaves a player that is already clear where it is |
| Resolution.Resolve | __main__.py:237-257 | after the sweep, `collide` refers to at most one obstacle, and to one that exists |
| Resolution.SubStep | __main__.py:244-256 | one sub-step keeps four contact slots, and changes them only when the moved player hits an obstacle |
| Resolution.SubStepFree | __main__.py:243-247 | a sub-step that hits nothing moves by the increment, keeps `collide`, and ends clear of every obstacle |
| Resolution.SubStepHit | __main__.py:245-256 | a sub-step that hits the k-th obstacle passed the earlier ones and records contacts only with the k-th |
| Resolution.SubStepHitWholeUndo | __main__.py:249-250 | with a whole-pixel increment, a hit from a clear position returns the player to exactly where the sub-step began |
| Resolution.SubStepHitPlace | __main__.py:249-256 | a sub-step that hits the k-th obstacle puts the player where `Unstick` moves it from the undone position, with the contacts against the k-th obstacle |
| Resolution.SubStepSingleObstacle | __main__.py:253-256 | a sub-step keeps `collide` naming at most one obstacle |
| Resolution.SubStepsSingleObstacle | __main__.py:243-257 | the whole sweep keeps `collide` naming at most one obstacle |
| Resolution.SubStepsInEmptyLevel | __main__.py:243-257 | with no obstacles the sweep never changes `collide` |
| Resolution.WallStep | __main__.py:243-256 | a one-pixel player moving right into a wall one pixel away stays put and records the wall on its right side |
| Resolution.WallToTheRight | __main__.py:230-257 | a whole frame at speed 3 toward that wall ends at the start pixel with only the right contact |
| World.PyIndex | __main__.py:119 | Python list indexing: negative indices count from the end, and an index outside `-len..len-1` raises IndexError |
| World.Obstacle.Still | __main__.py:266-313 | a layer, block, spike or goal keeps its rectangle, kind and angle, shows its one image, has the image as its mask and starts untouched |
| World.Obstacle.Pad | __main__.py:316-327 | a bounce pad shows its last frame, has it as its mask and starts at rest |
| World.Obstacle.PadLoop | __main__.py:329-339 | the mask is taken from the image shown before the frame; bounce count, animation counter and shown frame follow `PadTick` |
| World.Shapes | __main__.py:245 | the snapshot lists every obstacle's position, mask and kind in the same order |
| World.Flags | __main__.py:218-225 | a contact flag is set exactly when its slot of `collide` holds an obstacle |
| World.Refs | __main__.py:253-256 | a slot holds the obstacle the resolver named there, and is empty where it named none |
| World.Gravitated | __main__.py:227-229 | the fall counter goes up by one and only the vertical speed may change |
| World.Collided | __main__.py:190-263 | `collision` always leaves four contact slots |
| World.Resolved | __main__.py:230-263 | the part of `collision` after gravity always leaves four contact slots |
| World.StillFrameKeepsContacts | __main__.py:232-235 | a frame at rest neither moves the player nor clears its contacts |
| World.RestIsStable | __main__.py:218-235 | a player resting on a floor stays exactly where it is, with the fall counter reset |
| World.CollidedFallCount | __main__.py:218-229 | after `collision` the fall counter is 0 exactly when grounded, and one more than before otherwise |
| World.CollidedStopsBlockedAxes | __main__.py:218-229 | a side contact stops horizontal motion and otherwise keeps it; a top or bottom contact stops vertical motion and otherwise leaves the speed gravity gave |
| World.CollidedNamesOneObject | __main__.py:237-257 | after a moving frame, every filled slot of `collide` names the same obstacle, and it is one of the level's |
| World.Respawned | __main__.py:151-160 | respawning fails exactly when the level has no start; otherwise the player goes to the start with zero velocity, no contacts and a reset fall counter, and nothing else changes |
| World.Touch | __main__.py:353-369 | an empty slot does nothing; only a goal can fail, and a goal fails exactly when the next level has no start, otherwise it raises the level by one and respawns the player there; every other slot keeps the level |
| World.DispatchAll | __main__.py:353-369 | dispatching every slot keeps four contact slots and never lowers the level |
| World.KeysOutcome | __main__.py:351-384 | a successful keys call never lowers the level and keeps four contact slots |
| World.OccurrencesAppend | __main__.py:361 | proof helper: counting the entries equal to `o` in a list grown by one entry adds one exactly when that entry is `o` |
| World.OccurrencesPrefixStep | __main__.py:361 | proof helper: the same counting step over a prefix of the contact list, for every obstacle at once |
| World.GoalOnTwoSidesSkipsALevel | __main__.py:353-359 | a goal touched on two sides advances the level twice and respawns the player at the start after next |
| World.SpikesCountHits | __main__.py:353-356 | with no goal in contact, the level is unchanged and the hit count grows by the number of spike slots |
| World.DispatchConcat | __main__.py:353 | slots are dispatched in order, and a failure stops the dispatch |
| World.EmptySidesDispatchNothing | __main__.py:353-354 | with no contacts, the dispatch changes nothing |
| World.OnlyOn | __main__.py:353 | proof helper: builds a contact list holding one obstacle on one chosen side, used to state the bounce lemma |
| World.BounceIgnoresSide | __main__.py:360-369 | a bounce pad bounces the player by its angle, whichever side touched it |
| World.TurnTo | __main__.py:373-378 | the player faces the new way, and the animation restarts exactly when it turned |
| World.ApplyHeld | __main__.py:371-384 | the held keys never change the level; without R they cannot fail, and with R they fail exactly when the current level has no start |
| World.Steered | __main__.py:372-379 | steering changes only the facing, the animation counter and the horizontal speed |
| World.GoLeft | __main__.py:372 | without a wall on the left, either left key steers left; with one, only the arrow key does |
| World.GoRight | __main__.py:376 | without a wall on the right, either right key steers right; with one, only the arrow key does |
| World.LeftArrowIgnoresWall | __main__.py:372-375 | with a wall on the left, the left arrow still steers left, and A alone (without a right key that applies) does nothing |
| World.SteeringIsCapped | __main__.py:372-379 | steering never takes the speed past MSPEED in the steered direction |
| World.JumpNeedsGround | __main__.py:380-381 | without R, the vertical speed changes only with a jump key held and a fall counter of 0; and a jump key held with a fall counter of 0 always sets the speed to `-GRAVITY * JUMP = 20`, the fall counter to 0 and the animation counter to 0 |
| World.RespawnKeyRestarts | __main__.py:382-383 | with R held, keys fails exactly when the current level has no start; otherwise the player is at that start with zero velocities, no contacts and a fall counter of 0, keeping the facing and hit counter the steering left and the animation counter the jump left |
| World.Center | __main__.py:413-419 | the camera offset puts the player inside the scroll band, and is 0 on an axis where the player already is |
| World.Scroll | __main__.py:401-410 | on each axis the camera moves by the player's speed exactly when the player is past the scroll margin and moving toward that edge, and stays put otherwise |
| World.ScrollFollowsMotion | __main__.py:401-410 | the camera never moves against the player's motion |
| Game.Frame | __main__.py:128-142 | the shown image is one of the frames of the sheet chosen for the state and facing |
| Game.SingleFrameSheet | __main__.py:140-141 | a one-frame sheet shows the same image whatever the animation counter |
| Game.FrameHeldForAnimDelay | __main__.py:141 | each frame is held for ANIM_DELAY ticks |
| Game.Settled | __main__.py:166-182 | after the loop tail the horizontal speed is no larger, the vertical speed is within ±TERMINALVEL, the animation counter has gone up by one, and only those fields and the hit count change |
| Game.RespawnDueMeaning | __main__.py:181-187 | falling 2000 pixels out of the level always respawns; an unhit player inside the level never does |
| Game.RespawnDue | __main__.py:181-187 | leaving the world by 2000 pixels is always due; for an unhit player with a non-negative frame rate it is the only reason |
| Game.Player.constructor | __main__.py:114-126 | a new player is at its level's start, at rest, facing right, with no contacts, and with the first frame of the fall sheet shown |
| Game.Player.UpdateSprite | __main__.py:128-146 | the mask becomes `Frame` of the state at the old animation counter, which then goes up by one |
| Game.Player.Respawn | __main__.py:151-160 | fails exactly when `Respawned` does, leaving the state unchanged; otherwise the state becomes `Respawned` and the camera is centred on the start |
| Game.Player.Loop | __main__.py:162-188 | the state becomes `Collided`, then `Settled`, with the frame picked after friction and clamping; on a due respawn the state becomes `Respawned` and the offset is recentred, otherwise the offset is returned unchanged; after a moving frame an obstacle is `touched` exactly when it is in the contact record collision left, after a frame at rest the flags are unchanged, and nothing else about an obstacle changes |
| Game.Player.Settle | __main__.py:166-188 | the same for the part of `loop` after `collision` |
| Game.Player.Slow | __main__.py:166-177 | the horizontal speed becomes `ApplyFriction` of the old one, the vertical speed is clamped to ±TERMINALVEL, and nothing else changes |
| Game.Player.AddIncr | __main__.py:191-194 | the player moves by the increment as Rect stores it |
| Game.Player.TryDirection | __main__.py:196-200 | a one-pixel probe returns the obstacle exactly when it overlaps there, and leaves the player where it was |
| Game.Player.HasCollided | __main__.py:202-203 | a layer never collides, and neither does an empty mask on either side |
| Game.Player.Probes | __main__.py:240-251 | the four probes report, side by side, exactly where the obstacle overlaps, and leave the player where it was |
| Game.Player.FindNonCollision | __main__.py:205-216 | the player ends where `Unstick` puts it: backed out along the increment, or failing that lifted up |
| Game.Player.BackOffLoop | __main__.py:206-210 | the first loop of `find_non_collision` succeeds exactly when `BackOff` finds a clear place, and then the player is there |
| Game.Player.StepUpLoop | __main__.py:213-216 | the second loop lifts the player to where `StepUp` puts it, keeping x |
| Game.Player.DealWithCollision | __main__.py:218-225 | the velocities and fall counter become `Deal` of the contacts |
| Game.Player.Collision | __main__.py:190-263 | the new state is exactly `Collided` of the old one; after a moving frame an obstacle is `touched` exactly when it is in `collide`, after a frame at rest the flags are unchanged, and nothing else about an obstacle changes |
| Game.Player.ApplyGravity | __main__.py:227-229 | the fall counter and vertical speed become `Gravitated` of the old state |
| Game.Player.ResolveMotion | __main__.py:230-263 | the state becomes `Resolved` of the state after gravity; with motion, an obstacle is `touched` exactly when it is in `collide`; at rest the flags are unchanged |
| Game.Player.Move | __main__.py:237-263 | the player ends where `Resolve` puts it, with the contacts it names, the velocities dealt with, and `touched` set exactly for the obstacles in contact |
| Game.Player.Sweep | __main__.py:243-257 | the `max_speed` sub-steps leave the player at `Resolve`'s position with its contacts |
| Game.Player.SubStepAgainst | __main__.py:244-257 | one pass over the obstacles performs exactly the resolver's `SubStep` |
| Game.Player.SettleOn | __main__.py:249-256 | on a hit the player is undone and unstuck as `Unstick` says, and `collide` becomes the heading-gated contacts with that obstacle |
| Game.Player.MarkTouched | __main__.py:258-262 | an obstacle is `touched` exactly when it is in `collide`, and nothing else about it changes |
| Game.Keys | __main__.py:351-384 | the outcome is `KeysOutcome`: it fails exactly when a goal or R key respawns into a missing level, otherwise the returned level and the player's state are the dispatch followed by the held keys; each pad's bounce count grows by the number of slots naming it; the player's mask and the contacted obstacles' mask, image, animation and touched flag are unchanged |
| Game.DispatchContacts | __main__.py:353-369 | the loop over the contact slots computes `DispatchAll` over the slots as they were, with the same bounce counting; the player's mask and the obstacles' other fields are unchanged |
| Game.TouchOne | __main__.py:354-369 | one contact slot acts as `Touch` says, failing exactly when `Touch` does; a pad's bounce count goes up by one; the player's mask is unchanged |
| Game.ApplyKeys | __main__.py:371-384 | the held keys act as `ApplyHeld` says; the player's mask is unchanged |
| Game.Player.SteerKeys | __main__.py:372-379 | the state becomes `Steered` of the old one |
| Game.FirstHitNone | __main__.py:245-247 | an obstacle loop that finds no overlap agrees with `FirstHit` finding none |
| Game.FirstHitAt | __main__.py:245-249 | an obstacle loop that stops at the first overlap agrees with `FirstHit` |
| Game.Gate | __main__.py:253-256 | the heading gate keeps four slots |
| Game.ContactsAsRefs | __main__.py:251-256 | the gated probe results are the resolver's contacts, read as obstacles |
| Early.ApplyFriction | platformer.py:148-154 | `xvel` moves toward zero by FRICTION when it is more than FRICTION / 2 from zero, and is set to zero otherwise |
| Early.FrictionSlows | plat2.py:114-120 | friction strictly slows a moving player, leaves a resting one at rest, and can overshoot zero (3 becomes -1) |
| Early.RestStaysAtRest | platformer.py:148-154 | a player at rest stays at rest under friction |
| Early.FrictionStops | platformer.py:148-154 | with no input, a speed of at most `4n + 2` is zero after n + 1 frames |
| Early.Gravitate | platformer.py:138-145 | the gravity step moves nothing and leaves `xvel` alone |
| Early.Tick | platformer.py:137-154 | the player moves by the velocities after gravity and keylink; the horizontal speed carried into the next frame is never larger than the move just made, and the vertical move is exactly the new vertical speed |
| Early.Steer | platformer.py:117-135 | keylink changes only the velocities |
| Early.GroundLine | platformer.py:137-147 | at or below y = 600 the fall counter resets and the vertical speed is 0, or -JUMP when jumping |
| Early.Airborne | plat2.py:103-112 | above y = 600 the fall counter rises by one, gravity adds `(fallcount / fps) * GRAVITY`, and the jump key has no effect |
| Early.SpeedStaysCapped | platformer.py:117-154 | a horizontal speed within MAXSPEED stays within it through a frame |
| Early.RestOnGround | platformer.py:137-154 | a player at rest on the ground with no key held does not move |
| Early.Player.constructor | platformer.py:75-88 | a new player is at the given position, at rest, 60 by 60 whatever size is asked for, facing right, without the misspelt field |
| Early.Player.MMove | platformer.py:91-93 | the position moves by exactly the given displacement and nothing else changes |
| Early.Player.MLeft | platformer.py:95-98 | the player moves left at the given speed and faces left |
| Early.Player.MRight | plat2.py:68-71 | the player moves right at the given speed and faces right |
| Early.Player.Keylink | plat2.py:85-101 | the velocities change as `Steer` says, the image follows the key held, and only the misspelt `x_vel` is reset |
| Early.Player.Loop | platformer.py:137-154 | one frame changes the motion state exactly as `Tick` says |

## Left out

- Rendering, sprite-sheet loading, image rotation and flipping, `draw`, `print` calls, the window, the main loops and level loading (`process_levels`, `level.py`). Obstacles are given their final masks, and the player is given its sprite sheets as a map from sheet and facing to frames.
- Pixel masks are sets of opaque pixels. `pygame.mask.from_surface` is not modelled: a frame's mask is the frame itself.
- Floating point: velocities and the camera offset are exact reals. Rect's storage of a fractional coordinate is modelled as truncation toward zero, and its float arithmetic rounding is not modelled.
- `pygame.key.get_pressed` is an input parameter (`KeyState`, `Intent`), and fps is a parameter.
- The player's `ground`, `horiz` and `size` fields and the early player's `grounded` and `mask` fields are written and never read, so they are not modelled.
- The early files' `meters_pixels`, `m_walljump`, `m_crouchleft` and `crouchright` are stubs or return an image width, and are not modelled.
- The early player's `sprites` and image loading are not modelled. `entity` records which of the two images is shown.
- Early.Player.Loop: requires a non-zero fps, because Python raises ZeroDivisionError for fps = 0 once the player is airborne.
- Early: the two early files share one class; the agility (4.5 or 5) is fixed when a player is made (`PlatformerAgility`, `Plat2Agility`).
- Game.Keys: the unused `bounced` argument is returned unchanged in the source and is not modelled. On IndexError, the player's partial state at the point of failure is not stated, only that the call fails.
- World.ApplyHeld: its own contract states only the level and when it fails. `Steered`, `LeftArrowIgnoresWall` and `SteeringIsCapped` state the steering, `JumpNeedsGround` the jump in both directions, and `RespawnKeyRestarts` the state R respawns into.
- Resolution.Resolve: `max_speed` is computed from `ceil(abs(v))` on floats. Here it is the exact integer ceiling.
