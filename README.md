# Arena game engine of `game.js`

A model of the game-state engine of `projetoJogoWebJogosLogicos/game.js`, a
browser arcade game on an 800 x 600 canvas. The player moves a character with
W/A/S/D, shoots projectiles with the space bar and, from level 3 on, starts a
fire breath with F (5000 ms cooldown). Enemies spawn on the left or right edge
and home in on the character. A touching enemy costs a life and disappears. A
projectile that reaches an enemy kills it for 5 points, or 10 for a strong one.
A heart in reach gives back a life, up to three. The score sets the level
(1 below 10 points, 2 below 30, 3 below 70, then one more every 40 points),
and the level swaps the background and unlocks the fire breath.

Layout:

- `entities.dfy` (module `Entities`): the constants and the records the game
  keeps (projectiles, enemies, hearts, the held keys, the random draws).
- `scoring.dfy` (module `Scoring`): `updateScore` as a function on the five
  variables it writes, its level rule, and folds of it over a run of kills.
- `motion.dfy` (module `Motion`): the character's step and clamp, the muzzle
  of a shot, the flight of projectiles and the off-canvas filter.
- `collisions.dfy` (module `Collisions`): the distance test and the three
  loops of `checkCollisions`. Each loop is a function that walks its list
  front to back with the part already kept as an accumulator.
- `transitions.dfy` (module `Transitions`): all of the script's variables as
  one `State` value and one pure transition per function of the script. The
  lemmas here state what the transitions keep and promise.
- `engine.dfy` (module `Engine`): the class `Game`. Its fields are the script's
  variables and its methods update them in place, with the script's loops.
  Each method is proved to take `State()` to the matching transition.

Notes on the script's behaviour:

- The fire breath only sets and clears a flag. It kills nothing and scores
  nothing.
- Enemies have no health. One hit kills.
- There is no quiz and no winning score.
- `updateLives` draws `'❤️'.repeat(lives)`, which throws a RangeError when
  lives are negative. Lives can become negative: `startGame` after a loss
  (Enter on the game-over screen) resumes the run with 0 lives. The next
  touch takes lives to -1 and fails the `lives === 0` test. The throw then
  leaves the frame: the touching enemy stays, the projectile and heart passes
  are skipped, and no next frame is requested. The game still counts as
  running, so Enter no longer starts it, and only `restartGame` resumes play
  (`Transitions.StartAfterLossFreezes`). The model carries the throw as an
  outcome of the enemy pass (`Collisions.Contact.Thrown`) and as the result of
  `Engine.Game.CheckCollisions`.

## Model

| member | source | states |
|---|---|---|
| Scoring.LevelForMonotone | projetoJogoWebJogosLogicos/game.js:158-166 | The level reached never goes down as the score goes up. |
| Scoring.LevelExamples | projetoJogoWebJogosLogicos/game.js:158-166 | Scores 0 and 9 give level 1, 15 gives 2, 35 gives 3, 70 and 109 give 4, 110 gives 5. |
| Scoring.NextLevelFollowsScore | projetoJogoWebJogosLogicos/game.js:158-166 | The rule keeps the level unchanged below 10 points. Starting from the level the old score reached, it still gives the level any higher score reaches. |
| Scoring.ScoreStep | projetoJogoWebJogosLogicos/game.js:150-180 | One updateScore with non-negative points keeps the progress consistent. It adds exactly the points, raises the record to the score when the score passes it, never lowers the level, and unlocks fire breath exactly when level 3 is reached. |
| Scoring.BountyBounds | projetoJogoWebJogosLogicos/game.js:313 | A run of kills is worth between 5 and 10 points per kill. |
| Scoring.ScoreKillsSummary | projetoJogoWebJogosLogicos/game.js:150-180 | Scoring a run of kills in order adds their bounty to the score. The record is the larger of the old record and the new score. The level and the unlock follow the new score, and the progress stays consistent. |
| Scoring.ScoreKillsKeepsUnlock | projetoJogoWebJogosLogicos/game.js:177-179 | No run of kills locks fire breath again. |
| Motion.Clamp | projetoJogoWebJogosLogicos/game.js:223-224 | The clamped value lies in [lo, hi]. It equals the input inside the range and the nearer bound outside it. |
| Motion.Axis | projetoJogoWebJogosLogicos/game.js:212-221 | The displacement along an axis is 0 when both keys or neither are held, +4 with only the forward key, and -4 with only the back key. |
| Motion.Advance | projetoJogoWebJogosLogicos/game.js:244-250 | A projectile moves 10 px along its own direction. Its height and direction do not change. |
| Motion.KeepOnCanvas | projetoJogoWebJogosLogicos/game.js:251 | The projectiles kept are exactly those with x in [0, 800]. The list never grows. |
| Motion.KeepOnCanvasAppend | projetoJogoWebJogosLogicos/game.js:251 | The filter keeps the order: filtering a concatenation filters each part. |
| Motion.Steer | projetoJogoWebJogosLogicos/game.js:273-282 | Every enemy moves by its own displacement and keeps its kind, one result per enemy. |
| Collisions.RemoveAt | projetoJogoWebJogosLogicos/game.js:303 | Removing the entity at one position shortens the list by one. |
| Collisions.RemoveAtTakesOne | projetoJogoWebJogosLogicos/game.js:314 | The removal takes out exactly that one entity and keeps every other. |
| Collisions.ContactSurvived | projetoJogoWebJogosLogicos/game.js:291-305 | When the enemy pass finishes, the character lost one life per touching enemy. Exactly the touching enemies are removed and the others stay in order. |
| Collisions.ContactFatalIff | projetoJogoWebJogosLogicos/game.js:296-302 | With at least one life, the enemy pass ends the game if and only if the character touches at least as many enemies as it has lives, and it never throws. |
| Collisions.ContactFatalRemaining | projetoJogoWebJogosLogicos/game.js:296-303 | When the enemy pass ends the game, exactly lives - 1 enemies were removed before the `return`. |
| Collisions.ContactThrowsBelowOne | projetoJogoWebJogosLogicos/game.js:296-303 | With no life left at the start, the `lives === 0` test never fires. The pass throws exactly when some enemy touches: lives drop by one and no enemy is removed. Without a touch every enemy stays and lives are unchanged. |
| Collisions.FirstHit | projetoJogoWebJogosLogicos/game.js:308-318 | The chosen enemy is hit by the projectile and no earlier one is. With no choice, no enemy is hit. |
| Collisions.ShotPassAccounting | projetoJogoWebJogosLogicos/game.js:307-319 | Together, the surviving enemies and the kills are exactly the enemies there were, so no enemy is scored twice. The surviving projectiles plus the kills number the projectiles there were. Earlier kills stay first. |
| Collisions.ShotPassHits | projetoJogoWebJogosLogicos/game.js:307-319 | No projectile that flies on is in reach of an enemy still alive. Each killed enemy was in reach of the projectile spent on it. The projectiles that fly on and those spent are exactly the projectiles there were. |
| Collisions.OneProjectileOneKill | projetoJogoWebJogosLogicos/game.js:312-316 | A projectile in reach of two enemies kills only the first and is spent on it. |
| Collisions.OneEnemyScoredOnce | projetoJogoWebJogosLogicos/game.js:307-319 | Two projectiles in reach of one enemy kill it once. The second flies on. |
| Collisions.HeartPassSummary | projetoJogoWebJogosLogicos/game.js:321-330 | The heart pass removes exactly the hearts in reach and keeps the others in order. Each pickup adds a life, up to three. |
| Collisions.HealedInRange | projetoJogoWebJogosLogicos/game.js:326 | Pickups never lower lives and never take them above three. |
| Transitions.SpawnedEnemy | projetoJogoWebJogosLogicos/game.js:265-271 | A new enemy is on the left edge exactly when the first draw is below 0.5, otherwise on the right edge at x = 750. Its height lies in [0, 550). It is strong exactly when the third draw is below 0.3. |
| Transitions.SpawnedHeart | projetoJogoWebJogosLogicos/game.js:284-288 | A new heart lies in [0, 770) x [0, 570). |
| Transitions.InitialValid | projetoJogoWebJogosLogicos/game.js:6-26 | The state the script loads with is valid, with three lives. |
| Transitions.UpdateScoreKeepsValid | projetoJogoWebJogosLogicos/game.js:150-180 | updateScore with the points of a kill keeps the state valid. |
| Transitions.MoveCharacterSteps | projetoJogoWebJogosLogicos/game.js:211-225 | After a move the character is on the canvas, within [0, 750] x [0, 550]. Each axis moves by at most 4 px, and opposite keys held together cancel out. |
| Transitions.MoveProjectilesCulls | projetoJogoWebJogosLogicos/game.js:243-252 | After a frame every projectile left is on the canvas. A moved projectile is kept if and only if it is on the canvas, and the list never grows. |
| Transitions.ShootOnce | projetoJogoWebJogosLogicos/game.js:227-241 | A shot appends exactly one projectile at the muzzle and keeps the others. It blocks further shots until the cooldown timer fires, after which the next shot appends one more. |
| Transitions.FireBreathCooldownHolds | projetoJogoWebJogosLogicos/game.js:254-263 | Once started with time t recorded, fire breath is active. Any attempt whose clock reads before t + 5000 changes nothing, even after the breath has ended. An attempt at t + 5000 or later starts it again and records its own second clock read. |
| Transitions.FireBreathCooldownExample | projetoJogoWebJogosLogicos/game.js:254-263 | With the breath started at 0 ms, an attempt at 4999 ms fails and one at 5000 ms succeeds. |
| Transitions.FireBreathNeedsUnlock | projetoJogoWebJogosLogicos/game.js:255 | Fire breath never starts before it is unlocked. |
| Transitions.ContactEndsIff | projetoJogoWebJogosLogicos/game.js:291-305 | With at least one life, the enemy pass ends the game if and only if the character touches as many enemies as it has lives, and it never throws. |
| Transitions.FatalContactSkipsRest | projetoJogoWebJogosLogicos/game.js:298-301 | When the enemy pass takes the last life, the game is over with 0 lives. Score, projectiles and hearts are untouched, because the `return` skips the other passes. |
| Transitions.ThrownContactSkipsRest | projetoJogoWebJogosLogicos/game.js:296-303 | A touch with no life left makes the pass throw. Lives drop by one and nothing else changes: the enemy stays, the game still counts as running, and score, projectiles and hearts are untouched. |
| Transitions.CollisionsKeepLives | projetoJogoWebJogosLogicos/game.js:290-331 | Starting from one to three lives, checkCollisions leaves zero to three. Lives are zero exactly when this call ended the game, and otherwise the running flag is unchanged. |
| Transitions.CollisionsScore | projetoJogoWebJogosLogicos/game.js:307-319 | When the enemy pass neither ends the game nor throws, the projectile pass adds the kills' bounty to the score, between 5 and 10 per kill. The record follows the score and the level matches it. Each kill removes one enemy and one projectile. |
| Transitions.CheckCollisionsKeepsValid | projetoJogoWebJogosLogicos/game.js:290-331 | checkCollisions keeps the state valid, also when it ends the game or throws. |
| Transitions.ShotsResolveEveryHit | projetoJogoWebJogosLogicos/game.js:307-319 | After a full checkCollisions no projectile left is in reach of an enemy left. Each enemy killed was in reach of the projectile spent on it, and each projectile before the pass either flies on or was spent on one kill. |
| Transitions.FrameGate | projetoJogoWebJogosLogicos/game.js:355-356 | A frame of a game that is not running, or is paused, changes nothing. |
| Transitions.GameLoopKeepsValid | projetoJogoWebJogosLogicos/game.js:354-365 | Every frame keeps the state valid. |
| Transitions.GameLoopKeepsLives | projetoJogoWebJogosLogicos/game.js:354-365 | Frame after frame, lives stay within [0, 3] and a running game has at least one. |
| Transitions.RestartGameKeepsValid | projetoJogoWebJogosLogicos/game.js:193-209 | restartGame starts a valid, running, unpaused run with three lives, score 0 and level 1. |
| Transitions.CollisionsKeepUnlock | projetoJogoWebJogosLogicos/game.js:307-319 | checkCollisions never locks fire breath again. |
| Transitions.UnlockIsPermanent | projetoJogoWebJogosLogicos/game.js:177-179 | Once unlocked, fire breath stays unlocked through updateScore, checkCollisions, gameLoop and restartGame. |
| Transitions.StartAfterLossFreezes | projetoJogoWebJogosLogicos/game.js:296-305 | startGame after a loss resumes the run with 0 lives. A frame whose moved state has a touching enemy throws: lives become -1, nothing else changes, no next frame is requested, and the game still counts as running. |
| Transitions.FrameRequestedWhileConsistent | projetoJogoWebJogosLogicos/game.js:354-365 | While lives are consistent no frame throws, so the next frame is requested exactly when the game was running. |
| Engine.FindTarget | projetoJogoWebJogosLogicos/game.js:308-318 | The inner loop stops at the first enemy the projectile hits, or finds none. The result is the one FirstHit characterises. |
| Engine.Game.constructor | projetoJogoWebJogosLogicos/game.js:6-26 | The fields start as the script initialises them, with the stored record. The state is valid with three lives. |
| Engine.Game.UpdateScore | projetoJogoWebJogosLogicos/game.js:150-180 | The five fields it writes end as `Score` of their old values, whose meaning `Scoring.ScoreStep` states. |
| Engine.Game.EndGame | projetoJogoWebJogosLogicos/game.js:187-191 | The game stops running. Nothing else changes. |
| Engine.Game.SpawnEnemy | projetoJogoWebJogosLogicos/game.js:265-271 | The enemy list gains the one enemy `SpawnedEnemy` describes, at its end. |
| Engine.Game.SpawnTimerFired | projetoJogoWebJogosLogicos/game.js:415-419 | The spawn interval adds one enemy exactly when the game runs and is not paused. |
| Engine.Game.SpawnHeart | projetoJogoWebJogosLogicos/game.js:284-288 | The heart list gains the one heart `SpawnedHeart` describes, at its end. |
| Engine.Game.StartGame | projetoJogoWebJogosLogicos/game.js:399-405 | The game runs, with one new enemy, and stays valid. |
| Engine.Game.RestartGame | projetoJogoWebJogosLogicos/game.js:193-209 | Score, lives, level, background and the three lists are reset, with one new enemy. The record, the fire-breath variables, the shot flag and the character are kept. The run is valid and running with three lives. |
| Engine.Game.ResetStanding | projetoJogoWebJogosLogicos/game.js:195-203 | Score 0, level 1 and the castle background. The record and the unlock are kept. |
| Engine.Game.ResetRun | projetoJogoWebJogosLogicos/game.js:196-201 | Three lives, running, not paused. Nothing else changes. |
| Engine.Game.ClearLists | projetoJogoWebJogosLogicos/game.js:197-199 | The projectile, enemy and heart lists are empty. Nothing else changes. |
| Engine.Game.TogglePause | projetoJogoWebJogosLogicos/game.js:389-392 | The paused flag flips. Nothing else changes. |
| Engine.Game.MoveCharacter | projetoJogoWebJogosLogicos/game.js:211-225 | The character ends at the transition `MoveCharacter` gives, on the canvas (`Transitions.MoveCharacterSteps`). |
| Engine.Game.ShootProjectile | projetoJogoWebJogosLogicos/game.js:227-241 | The list gains one muzzle projectile only if a shot is allowed, and then shots are blocked (`Transitions.ShootOnce`). |
| Engine.Game.ShotCooldownElapsed | projetoJogoWebJogosLogicos/game.js:237-239 | Shooting is allowed again. Nothing else changes. |
| Engine.Game.MoveProjectiles | projetoJogoWebJogosLogicos/game.js:243-252 | Every projectile moves 10 px, and exactly those left off the canvas are dropped, in order (`Transitions.MoveProjectilesCulls`). |
| Engine.Game.ActivateFireBreath | projetoJogoWebJogosLogicos/game.js:254-263 | Fire breath starts only when it is unlocked and the guard's clock read is 5000 ms or more after the last recorded time. It then records the second clock read. Otherwise nothing changes (`Transitions.FireBreathCooldownHolds`). |
| Engine.Game.FireBreathElapsed | projetoJogoWebJogosLogicos/game.js:258-260 | Fire breath ends. Nothing else changes. |
| Engine.Game.MoveEnemies | projetoJogoWebJogosLogicos/game.js:273-282 | Every enemy moves by its own displacement and keeps its kind. |
| Engine.Game.ResolveContacts | projetoJogoWebJogosLogicos/game.js:291-305 | The enemy loop's result is the one `ContactPass` describes. On the last life: 0 lives, the game ended, and the enemies as they were at the `return`. On a touch below zero lives: the decremented lives, the enemies as they were at the throw, and the running flag unchanged. Otherwise: the surviving lives and enemies. It reports whether it ended the game and whether it threw. |
| Engine.Game.ResolveShots | projetoJogoWebJogosLogicos/game.js:307-319 | The projectile loop leaves the projectiles and enemies `ShotPass` describes, and the score fields scored once per kill, in order (`Collisions.ShotPassAccounting`). |
| Engine.Game.ResolvePickups | projetoJogoWebJogosLogicos/game.js:321-330 | The heart loop leaves the lives and hearts `HeartPass` describes (`Collisions.HeartPassSummary`). |
| Engine.Game.ContactPhase | projetoJogoWebJogosLogicos/game.js:291-305 | The enemy pass on the whole state. It reports exactly when it took the last life and exactly when updateLives threw. |
| Engine.Game.ShotPhase | projetoJogoWebJogosLogicos/game.js:307-319 | The projectile pass on the whole state. |
| Engine.Game.PickupPhase | projetoJogoWebJogosLogicos/game.js:321-330 | The heart pass on the whole state. |
| Engine.Game.CheckCollisions | projetoJogoWebJogosLogicos/game.js:290-331 | The enemy pass and, unless it ended the game or threw, the projectile and heart passes. It reports the throw (`Transitions.CollisionsKeepLives`, `Transitions.CollisionsScore`, `Transitions.ThrownContactSkipsRest`). |
| Engine.Game.GameLoop | projetoJogoWebJogosLogicos/game.js:354-365 | A frame moves and collides only when the game runs and is not paused. The next frame is requested exactly when the game was running and checkCollisions did not throw, which in a run with consistent lives means exactly when it was running. The state stays valid, and consistent lives stay consistent. |

## Left out

- Drawing, the glow effect, the HUD text and the menus are not modelled. They only read the state or touch the page.
- Audio playback is not modelled.
- The record is stored in `localStorage`. The model takes the stored record as a non-negative integer when the game is constructed and does not model writing it back.
- Timers are explicit methods that a caller invokes:
  - the 300 ms shot cooldown (`ShotCooldownElapsed`);
  - the 3000 ms fire-breath duration (`FireBreathElapsed`);
  - the 2000 ms spawn interval (`SpawnTimerFired`);
  - the frame request (`GameLoop` returns whether the next frame is requested).
- Every `startGame`/`restartGame` call starts one more spawn interval. The model does not count how many intervals are live.
- `Date.now()` is read twice by `activateFireBreath`: once by the guard and once for the time it records. The two reads are the `now` and `recordedAt` parameters of `ActivateFireBreath`.
- The `Math.random()` draws are parameters (`EnemyDraw`, and the two reals of `SpawnHeart`).
- Engine.Game.MoveEnemies: takes each enemy's displacement as a parameter. The square root, the division by the distance and the 2.4 / 2.88 px speeds are floating-point code and are not modelled.
- Distances are compared as squared distances over exact reals, with no floating-point rounding.
- The key listeners are not modelled. The held W/A/S/D flags are the `Keys` parameter of `GameLoop`. Space, F, P and Enter correspond to `ShootProjectile`, `ActivateFireBreath`, `TogglePause` and `StartGame`.
- The Shift flag is set by the key listeners but nothing reads it, so it is not modelled.
- The `shootCooldown` variable is the constant 300 ms and `fireBreathTimer` is never used, so neither is modelled.
- Engine.Game.RestartGame: the first `gameLoop` frame that `restartGame` runs is left to the caller's next `GameLoop` call.
- Engine.Game.StartGame: the same holds for the first `gameLoop` frame of `startGame`.
- `list.filter(x => x !== item)` is modelled as removal by position. Every entity is a distinct object, so the filter removes exactly one.
- The loops of `checkCollisions` iterate over the list as it was when each loop began. The model does the same, and the methods keep the kept part and the rest separately.
- Collisions.HeartPass: does not model the RangeError that `updateLives` (game.js:327, 183) would throw on a pickup that leaves lives below zero. That needs a frame that starts with lives at -2 or lower. The only way lives go below zero is a throwing enemy pass, and that stops the frame loop.
- `spawnHeart` is modelled even though nothing in the script calls it.
