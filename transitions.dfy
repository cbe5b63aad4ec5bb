/** The whole game state as a value, and one pure transition per function of
    the script that changes it. The `Game` class (engine.dfy) keeps the same
    variables as fields and each of its methods is proved to take the state
    to the transition given here; the lemmas below say what the transitions
    keep and promise. */
module Transitions {
  import opened Entities
  import opened Scoring
  import opened Motion
  import opened Collisions

  /** The script's module-level variables (game.js:6-26, 46-47). */
  datatype State = State(
    progress: Progress,
    lives: int,
    gameRunning: bool,
    isPaused: bool,
    characterX: int,
    characterY: int,
    characterDirection: Direction,
    canShoot: bool,
    fireBreathActive: bool,
    lastFireBreathTime: int,
    projectiles: seq<Projectile>,
    enemies: seq<Enemy>,
    hearts: seq<Heart>)

  /** The state when the script has loaded, with the stored record. */
  function Initial(storedHighScore: int): State {
    State(Progress(0, storedHighScore, 1, false, Castle), MaxLives, false, false,
          StartX, StartY, Right, true, false, 0, [], [], [])
  }

  /** What every transition keeps: the character on the canvas, the progress
      consistent, and never more than three lives. */
  predicate Valid(s: State) {
    0 <= s.characterX <= MaxX && 0 <= s.characterY <= MaxY
    && ProgressValid(s.progress)
    && s.lives <= MaxLives
  }

  /** Lives in [0, 3], and a running game has at least one. */
  predicate LivesConsistent(s: State) {
    0 <= s.lives <= MaxLives && (s.gameRunning ==> s.lives >= 1)
  }

  // ---- Score and the run's life cycle ----

  /** updateScore(points) (game.js:150-180). */
  function UpdateScore(s: State, points: int): State {
    s.(progress := Score(s.progress, points))
  }

  /** endGame (game.js:187-191). */
  function EndGame(s: State): State {
    s.(gameRunning := false)
  }

  /** The enemy spawnEnemy creates from its three draws (game.js:265-271):
      on the left or right edge, at a height within the canvas minus a sprite,
      strong with a draw below 0.3. */
  function SpawnedEnemy(d: EnemyDraw): (e: Enemy)
    requires IsEnemyDraw(d)
    ensures e.x == 0.0 || e.x == MaxX as real
    ensures e.x == 0.0 <==> d.side < LeftEdgeChance
    ensures 0.0 <= e.y < MaxY as real
    ensures e.kind == Strong <==> d.kind < StrongChance
  {
    Enemy(if d.side < LeftEdgeChance then 0.0 else MaxX as real,
          d.height * MaxY as real,
          if d.kind < StrongChance then Strong else Normal)
  }

  /** spawnEnemy (game.js:265-271). */
  function SpawnEnemy(s: State, d: EnemyDraw): State
    requires IsEnemyDraw(d)
  {
    s.(enemies := s.enemies + [SpawnedEnemy(d)])
  }

  /** One firing of the 2000 ms spawn interval (game.js:415-419): it spawns
      only while the game runs and is not paused. */
  function SpawnTimerFired(s: State, d: EnemyDraw): State
    requires IsEnemyDraw(d)
  {
    if s.gameRunning && !s.isPaused then SpawnEnemy(s, d) else s
  }

  /** The heart spawnHeart creates (game.js:284-288): anywhere within the
      canvas minus the 30 px heart. */
  function SpawnedHeart(rx: real, ry: real): (h: Heart)
    requires IsRandom(rx) && IsRandom(ry)
    ensures 0.0 <= h.x < (CanvasWidth - HeartSize) as real
    ensures 0.0 <= h.y < (CanvasHeight - HeartSize) as real
  {
    Heart(rx * (CanvasWidth - HeartSize) as real, ry * (CanvasHeight - HeartSize) as real)
  }

  /** spawnHeart (game.js:284-288); nothing in the script calls it. */
  function SpawnHeart(s: State, rx: real, ry: real): State
    requires IsRandom(rx) && IsRandom(ry)
  {
    s.(hearts := s.hearts + [SpawnedHeart(rx, ry)])
  }

  /** startGame (game.js:399-405) with the first enemy of spawnEnemies. */
  function StartGame(s: State, d: EnemyDraw): State
    requires IsEnemyDraw(d)
  {
    SpawnEnemy(s.(gameRunning := true), d)
  }

  /** restartGame (game.js:193-209) with the first enemy of spawnEnemies:
      score, lives, level, background and the lists are reset; the record,
      the fire-breath variables, the shot flag and the character are not. */
  function RestartGame(s: State, d: EnemyDraw): State
    requires IsEnemyDraw(d)
  {
    var reset := s.(
      progress := s.progress.(score := 0, level := 1, background := Castle),
      lives := MaxLives,
      projectiles := [], enemies := [], hearts := [],
      gameRunning := true, isPaused := false);
    SpawnEnemy(reset, d)
  }

  /** togglePause (game.js:389-392). */
  function TogglePause(s: State): State {
    s.(isPaused := !s.isPaused)
  }

  // ---- Movement and abilities ----

  /** moveCharacter (game.js:211-225). */
  function MoveCharacter(s: State, keys: Keys): State {
    s.(characterX := Clamp(s.characterX + Axis(keys.a, keys.d), 0, MaxX),
       characterY := Clamp(s.characterY + Axis(keys.w, keys.s), 0, MaxY),
       characterDirection := Facing(s.characterDirection, keys))
  }

  /** shootProjectile (game.js:227-241). */
  function ShootProjectile(s: State): State {
    if s.canShoot then
      s.(projectiles := s.projectiles + [Muzzle(s.characterX, s.characterY, s.characterDirection)],
         canShoot := false)
    else s
  }

  /** The 300 ms timer that shootProjectile sets (game.js:237-239). */
  function ShotCooldownElapsed(s: State): State {
    s.(canShoot := true)
  }

  /** moveProjectiles (game.js:243-252). */
  function MoveProjectiles(s: State): State {
    s.(projectiles := KeepOnCanvas(AdvanceAll(s.projectiles)))
  }

  /** The guard of activateFireBreath at time `now` (game.js:255). */
  predicate FireBreathReady(s: State, now: int) {
    s.progress.fireBreathUnlocked && now - s.lastFireBreathTime >= FireBreathCooldown
  }

  /** activateFireBreath (game.js:254-263): the guard reads the clock as
      `now`, and the time recorded is a second read, `recordedAt`. */
  function ActivateFireBreath(s: State, now: int, recordedAt: int): State {
    if FireBreathReady(s, now) then s.(fireBreathActive := true, lastFireBreathTime := recordedAt) else s
  }

  /** The 3000 ms timer that activateFireBreath sets (game.js:258-260). */
  function FireBreathElapsed(s: State): State {
    s.(fireBreathActive := false)
  }

  /** moveEnemies (game.js:273-282) with each enemy's displacement given. */
  function MoveEnemies(s: State, steps: seq<Vector>): State
    requires |steps| == |s.enemies|
  {
    s.(enemies := Steer(s.enemies, steps))
  }

  // ---- checkCollisions (game.js:290-331) ----

  /** The enemy pass takes the last life. */
  predicate ContactEnds(s: State) {
    ContactPass(s.lives, [], s.enemies, s.characterX, s.characterY).Fatal?
  }

  /** The enemy pass leaves lives below zero and `updateLives` throws. */
  predicate ContactThrows(s: State) {
    ContactPass(s.lives, [], s.enemies, s.characterX, s.characterY).Thrown?
  }

  /** The enemy pass (game.js:291-305); when it takes the last life it ends
      the game, and when it throws it leaves the state where the throw
      happened. */
  function ContactPhase(s: State): State {
    match ContactPass(s.lives, [], s.enemies, s.characterX, s.characterY)
    case Fatal(remaining) => s.(lives := 0, gameRunning := false, enemies := remaining)
    case Thrown(lives, remaining) => s.(lives := lives, enemies := remaining)
    case Survived(lives, kept) => s.(lives := lives, enemies := kept)
  }

  /** The projectile pass (game.js:307-319), one updateScore per kill. */
  function ShotPhase(s: State): State {
    var v := ShotPass([], s.projectiles, s.enemies, [], []);
    s.(progress := ScoreKills(s.progress, v.kills), projectiles := v.projectiles, enemies := v.enemies)
  }

  /** The heart pass (game.js:321-330). */
  function PickupPhase(s: State): State {
    var h := HeartPass(s.lives, [], s.hearts, s.characterX, s.characterY);
    s.(lives := h.lives, hearts := h.hearts)
  }

  /** checkCollisions: the `return` after endGame, and the exception thrown
      by updateLives, both skip the other two passes. */
  function CheckCollisions(s: State): State {
    if ContactEnds(s) || ContactThrows(s) then ContactPhase(s)
    else PickupPhase(ShotPhase(ContactPhase(s)))
  }

  /** The state a running frame hands to checkCollisions: the character,
      the projectiles and the enemies moved (game.js:357-359). */
  function Moved(s: State, keys: Keys, steps: seq<Vector>): State
    requires |steps| == |s.enemies|
  {
    MoveEnemies(MoveProjectiles(MoveCharacter(s, keys)), steps)
  }

  /** One frame of gameLoop (game.js:354-365); nothing moves unless the game
      runs and is not paused. */
  function GameLoop(s: State, keys: Keys, steps: seq<Vector>): State
    requires |steps| == |s.enemies|
  {
    if s.gameRunning && !s.isPaused then CheckCollisions(Moved(s, keys, steps))
    else s
  }

  /** The frame throws out of checkCollisions. */
  predicate FrameThrows(s: State, keys: Keys, steps: seq<Vector>)
    requires |steps| == |s.enemies|
  {
    s.gameRunning && !s.isPaused && ContactThrows(Moved(s, keys, steps))
  }

  /** The frame reaches `requestAnimationFrame(gameLoop)` (game.js:363): the
      game was running when the frame began and nothing threw. */
  predicate NextFrameRequested(s: State, keys: Keys, steps: seq<Vector>)
    requires |steps| == |s.enemies|
  {
    s.gameRunning && !FrameThrows(s, keys, steps)
  }

  // ---- What the transitions keep ----

  lemma InitialValid(storedHighScore: int)
    requires storedHighScore >= 0
    ensures Valid(Initial(storedHighScore)) && LivesConsistent(Initial(storedHighScore))
  {
  }

  /** updateScore with the points of a kill keeps the state valid. */
  lemma UpdateScoreKeepsValid(s: State, points: int)
    requires Valid(s) && points >= 0
    ensures Valid(UpdateScore(s, points))
  {
  }

  /** The character ends every move on the canvas, each axis moves by at most
      the character speed, and opposite keys held together cancel out. */
  lemma MoveCharacterSteps(s: State, keys: Keys)
    requires Valid(s)
    ensures var t := MoveCharacter(s, keys);
      0 <= t.characterX <= MaxX && 0 <= t.characterY <= MaxY
      && -CharacterSpeed <= t.characterX - s.characterX <= CharacterSpeed
      && -CharacterSpeed <= t.characterY - s.characterY <= CharacterSpeed
      && (keys.a == keys.d ==> t.characterX == s.characterX)
      && (keys.w == keys.s ==> t.characterY == s.characterY)
  {
  }

  /** After a frame of flight every projectile is on the canvas, each one is a
      moved projectile of before, and a moved projectile is kept exactly when
      it is on the canvas. */
  lemma MoveProjectilesCulls(s: State)
    ensures var t := MoveProjectiles(s);
      (forall p :: p in t.projectiles ==> OnCanvas(p))
      && (forall i :: 0 <= i < |s.projectiles| ==>
            (Advance(s.projectiles[i]) in t.projectiles <==> OnCanvas(Advance(s.projectiles[i]))))
      && |t.projectiles| <= |s.projectiles|
  {
    var moved := AdvanceAll(s.projectiles);
    forall i | 0 <= i < |s.projectiles|
      ensures Advance(s.projectiles[i]) in moved
    {
      assert moved[i] == Advance(s.projectiles[i]);
    }
  }

  /** A shot appends exactly one projectile at the muzzle and blocks further
      shots until the cooldown timer fires. */
  lemma ShootOnce(s: State)
    requires s.canShoot
    ensures var t := ShootProjectile(s);
      |t.projectiles| == |s.projectiles| + 1
      && t.projectiles[..|s.projectiles|] == s.projectiles
      && t.projectiles[|s.projectiles|] == Muzzle(s.characterX, s.characterY, s.characterDirection)
      && !t.canShoot
      && ShootProjectile(t) == t
      && ShootProjectile(ShotCooldownElapsed(t)).projectiles == t.projectiles + [Muzzle(s.characterX, s.characterY, s.characterDirection)]
  {
  }

  /** The cooldown: after fire breath starts with time t recorded, every
      attempt whose clock reads before t + 5000 changes nothing, even once the
      breath has ended, and an attempt at or after t + 5000 starts it again. */
  lemma FireBreathCooldownHolds(s: State, now: int, t: int, later: int, laterRecorded: int)
    requires FireBreathReady(s, now)
    ensures var a := ActivateFireBreath(s, now, t);
      a.fireBreathActive && a.lastFireBreathTime == t
      && (later < t + FireBreathCooldown ==>
            ActivateFireBreath(a, later, laterRecorded) == a
            && ActivateFireBreath(FireBreathElapsed(a), later, laterRecorded) == FireBreathElapsed(a))
      && (later >= t + FireBreathCooldown ==>
            ActivateFireBreath(FireBreathElapsed(a), later, laterRecorded)
              == FireBreathElapsed(a).(fireBreathActive := true, lastFireBreathTime := laterRecorded))
  {
  }

  /** With the breath started at time 0, an attempt at 4999 ms fails and one
      at 5000 ms succeeds. */
  lemma FireBreathCooldownExample(s: State)
    requires s.progress.fireBreathUnlocked && s.lastFireBreathTime <= -FireBreathCooldown
    ensures var a := FireBreathElapsed(ActivateFireBreath(s, 0, 0));
      ActivateFireBreath(a, 4999, 4999) == a
      && ActivateFireBreath(a, 5000, 5000).fireBreathActive
  {
  }

  /** Until level 3 unlocks it, fire breath never starts. */
  lemma FireBreathNeedsUnlock(s: State, now: int, recordedAt: int)
    requires !s.progress.fireBreathUnlocked
    ensures ActivateFireBreath(s, now, recordedAt) == s
  {
  }

  /** The enemy pass ends the game exactly when the character, having at
      least one life, touches as many enemies as it has lives; with a life it
      never throws. */
  lemma ContactEndsIff(s: State)
    requires s.lives >= 1
    ensures ContactEnds(s) <==> TouchCount(s.characterX, s.characterY, s.enemies) >= s.lives
    ensures !ContactThrows(s)
  {
    ContactFatalIff(s.lives, [], s.enemies, s.characterX, s.characterY);
  }

  /** A pass that takes the last life leaves score, projectiles and hearts as
      they were and leaves the game ended with no life. */
  lemma FatalContactSkipsRest(s: State)
    requires ContactEnds(s)
    ensures var t := CheckCollisions(s);
      t.lives == 0 && !t.gameRunning
      && t.progress == s.progress && t.projectiles == s.projectiles && t.hearts == s.hearts
  {
  }

  /** A touch with no life left makes updateLives throw: lives drop by one,
      no enemy is removed, the game still counts as running, and nothing
      else changes, since the projectile and heart passes never start. */
  lemma ThrownContactSkipsRest(s: State)
    requires s.lives <= 0 && TouchCount(s.characterX, s.characterY, s.enemies) >= 1
    ensures ContactThrows(s) && CheckCollisions(s) == s.(lives := s.lives - 1)
  {
    ContactThrowsBelowOne(s.lives, [], s.enemies, s.characterX, s.characterY);
    assert [] + s.enemies == s.enemies;
  }

  /** Starting from one to three lives, collisions leave zero to three; zero
      exactly when the game ended in this pass, otherwise the run goes on. */
  lemma CollisionsKeepLives(s: State)
    requires 1 <= s.lives <= MaxLives
    ensures var t := CheckCollisions(s);
      0 <= t.lives <= MaxLives
      && (t.lives == 0 <==> ContactEnds(s))
      && (ContactEnds(s) ==> !t.gameRunning)
      && (!ContactEnds(s) ==> t.gameRunning == s.gameRunning)
  {
    var cx, cy := s.characterX, s.characterY;
    ContactSurvived(s.lives, [], s.enemies, cx, cy);
    ContactFatalIff(s.lives, [], s.enemies, cx, cy);
    if !ContactEnds(s) {
      var s2 := ShotPhase(ContactPhase(s));
      HeartPassSummary(s2.lives, [], s2.hearts, cx, cy);
      HealedInRange(s2.lives, ReachCount(cx, cy, s2.hearts));
    }
  }

  /** What the projectile pass scores: the score grows by the kills' bounty,
      5 or 10 a kill; the record follows it; each kill removes one enemy and
      one projectile. */
  lemma CollisionsScore(s: State)
    requires Valid(s) && !ContactEnds(s) && !ContactThrows(s)
    ensures var s1 := ContactPhase(s);
      var v := ShotPass([], s1.projectiles, s1.enemies, [], []);
      var t := CheckCollisions(s);
      t.progress.score == s.progress.score + Bounty(v.kills)
      && s.progress.score + 5 * |v.kills| <= t.progress.score <= s.progress.score + 10 * |v.kills|
      && t.progress.highScore == Max(s.progress.highScore, t.progress.score)
      && t.progress.level == LevelFor(t.progress.score)
      && |t.enemies| + |v.kills| == |s1.enemies|
      && |t.projectiles| + |v.kills| == |s.projectiles|
  {
    var s1 := ContactPhase(s);
    var v := ShotPass([], s1.projectiles, s1.enemies, [], []);
    ScoreKillsSummary(s.progress, v.kills);
    BountyBounds(v.kills);
    ShotPassAccounting([], s1.projectiles, s1.enemies, [], []);
    assert CheckCollisions(s).enemies == v.enemies;
    assert |multiset(v.enemies) + multiset(v.kills)| == |multiset(s1.enemies)|;
  }

  /** checkCollisions keeps the state valid. */
  lemma CheckCollisionsKeepsValid(s: State)
    requires Valid(s)
    ensures Valid(CheckCollisions(s))
  {
    var cx, cy := s.characterX, s.characterY;
    if s.lives <= 0 {
      ContactThrowsBelowOne(s.lives, [], s.enemies, cx, cy);
    } else {
      ContactFatalIff(s.lives, [], s.enemies, cx, cy);
    }
    ContactSurvived(s.lives, [], s.enemies, cx, cy);
    if !ContactEnds(s) && !ContactThrows(s) {
      var s1 := ContactPhase(s);
      var v := ShotPass([], s1.projectiles, s1.enemies, [], []);
      ScoreKillsSummary(s.progress, v.kills);
      var s2 := ShotPhase(s1);
      HeartPassSummary(s2.lives, [], s2.hearts, cx, cy);
      HealedInRange(s2.lives, ReachCount(cx, cy, s2.hearts));
    }
  }

  /** The hit rule after checkCollisions has run all its passes: no
      projectile left is in reach of an enemy left, each enemy killed was in
      reach of the projectile spent on it, and every projectile before the
      pass either flies on or was spent on exactly one kill. */
  lemma ShotsResolveEveryHit(s: State)
    requires !ContactEnds(s) && !ContactThrows(s)
    ensures var s1 := ContactPhase(s);
      var v := ShotPass([], s1.projectiles, s1.enemies, [], []);
      var t := CheckCollisions(s);
      (forall p, e :: p in t.projectiles && e in t.enemies ==> !Hits(p, e))
      && |v.spent| == |v.kills|
      && (forall i :: 0 <= i < |v.kills| ==> Hits(v.spent[i], v.kills[i]))
      && multiset(t.projectiles) + multiset(v.spent) == multiset(s.projectiles)
  {
    var s1 := ContactPhase(s);
    ShotPassHits([], s1.projectiles, s1.enemies, [], []);
    assert [] + s1.projectiles == s.projectiles;
  }

  /** A frame of a game that is not running, or is paused, changes nothing. */
  lemma FrameGate(s: State, keys: Keys, steps: seq<Vector>)
    requires |steps| == |s.enemies|
    requires !s.gameRunning || s.isPaused
    ensures GameLoop(s, keys, steps) == s
  {
  }

  /** gameLoop keeps the state valid. */
  lemma GameLoopKeepsValid(s: State, keys: Keys, steps: seq<Vector>)
    requires Valid(s) && |steps| == |s.enemies|
    ensures Valid(GameLoop(s, keys, steps))
  {
    if s.gameRunning && !s.isPaused {
      CheckCollisionsKeepsValid(Moved(s, keys, steps));
    }
  }

  /** Frame after frame, lives stay within [0, 3] and a game still running
      has at least one; a game whose lives reach 0 has stopped. */
  lemma GameLoopKeepsLives(s: State, keys: Keys, steps: seq<Vector>)
    requires LivesConsistent(s) && |steps| == |s.enemies|
    ensures LivesConsistent(GameLoop(s, keys, steps))
  {
    if s.gameRunning && !s.isPaused {
      CollisionsKeepLives(Moved(s, keys, steps));
    }
  }

  /** restartGame starts a fresh run: valid, running with three lives. */
  lemma RestartGameKeepsValid(s: State, d: EnemyDraw)
    requires Valid(s) && IsEnemyDraw(d)
    ensures var t := RestartGame(s, d);
      Valid(t) && LivesConsistent(t) && t.gameRunning && !t.isPaused
      && t.progress.score == 0 && t.progress.level == 1
  {
  }

  /** checkCollisions never locks fire breath again. */
  lemma CollisionsKeepUnlock(s: State)
    requires s.progress.fireBreathUnlocked
    ensures CheckCollisions(s).progress.fireBreathUnlocked
  {
    var s1 := ContactPhase(s);
    ScoreKillsKeepsUnlock(s1.progress, ShotPass([], s1.projectiles, s1.enemies, [], []).kills);
  }

  /** Fire breath, once unlocked, stays unlocked: neither updateScore,
      checkCollisions, gameLoop nor restartGame clears it. */
  lemma UnlockIsPermanent(s: State, points: int, keys: Keys, steps: seq<Vector>, d: EnemyDraw)
    requires s.progress.fireBreathUnlocked && |steps| == |s.enemies| && IsEnemyDraw(d)
    ensures UpdateScore(s, points).progress.fireBreathUnlocked
    ensures CheckCollisions(s).progress.fireBreathUnlocked
    ensures GameLoop(s, keys, steps).progress.fireBreathUnlocked
    ensures RestartGame(s, d).progress.fireBreathUnlocked
  {
    CollisionsKeepUnlock(s);
    if s.gameRunning && !s.isPaused {
      CollisionsKeepUnlock(Moved(s, keys, steps));
    }
  }

  /** startGame after a loss (Enter on the game-over screen) resumes the run
      with no life left. In the first frame whose moved state has an enemy
      touching the character, the enemy pass takes lives to -1 and
      updateLives throws: no enemy is removed, the other passes are skipped,
      no next frame is requested, and the game still counts as running, so
      Enter no longer starts it. Only restartGame resumes play. */
  lemma StartAfterLossFreezes(s: State, d: EnemyDraw, keys: Keys, steps: seq<Vector>)
    requires IsEnemyDraw(d) && s.lives == 0 && !s.gameRunning && !s.isPaused
    requires |steps| == |s.enemies| + 1
    requires var m := Moved(StartGame(s, d), keys, steps);
      TouchCount(m.characterX, m.characterY, m.enemies) >= 1
    ensures var r := StartGame(s, d);
      var m := Moved(r, keys, steps);
      r.gameRunning && r.lives == 0
      && FrameThrows(r, keys, steps) && !NextFrameRequested(r, keys, steps)
      && GameLoop(r, keys, steps) == m.(lives := -1)
      && GameLoop(r, keys, steps).gameRunning
  {
    var r := StartGame(s, d);
    ThrownContactSkipsRest(Moved(r, keys, steps));
  }

  /** In a run whose lives are consistent no frame throws: the next frame is
      requested exactly when the game was running. */
  lemma FrameRequestedWhileConsistent(s: State, keys: Keys, steps: seq<Vector>)
    requires LivesConsistent(s) && |steps| == |s.enemies|
    ensures NextFrameRequested(s, keys, steps) == s.gameRunning
  {
    if s.gameRunning && !s.isPaused {
      ContactEndsIff(Moved(s, keys, steps));
    }
  }
}
