/** The game engine as the script runs it: its module-level variables are the
    fields of one `Game` object, and each function that updates them is a
    method that updates those fields in place (game.js:6-26, 150-392).
    Every method is proved to take `State()` to the matching transition of
    module Transitions, whose lemmas say what the transitions promise. */
module Engine {
  import opened Entities
  import opened Scoring
  import opened Motion
  import opened Collisions
  import T = Transitions

  /** The inner `for ... break` of the projectile pass (game.js:308-318): the
      position of the first enemy the projectile hits, if any. */
  method FindTarget(p: Projectile, es: seq<Enemy>) returns (k: Option<nat>)
    ensures k.Some? ==> k.value < |es| && Hits(p, es[k.value])
    ensures k.Some? ==> forall j :: 0 <= j < k.value ==> !Hits(p, es[j])
    ensures k.None? ==> forall j :: 0 <= j < |es| ==> !Hits(p, es[j])
    ensures k == FirstHit(p, es)
  {
    var m := 0;
    while m < |es|
      invariant 0 <= m <= |es|
      invariant forall j :: 0 <= j < m ==> !Hits(p, es[j])
    {
      if Hits(p, es[m]) {
        return Some(m);
      }
      m := m + 1;
    }
    return None;
  }

  class Game {
    var score: int
    var highScore: int
    var lives: int
    var gameRunning: bool
    var isPaused: bool
    var currentLevel: int
    var characterX: int
    var characterY: int
    var projectiles: seq<Projectile>
    var enemies: seq<Enemy>
    var hearts: seq<Heart>
    var canShoot: bool
    var canUseFireBreath: bool
    var fireBreathActive: bool
    var lastFireBreathTime: int
    var backgroundImage: Background
    var characterDirection: Direction

    /** The five fields updateScore writes, as one value. */
    ghost function Standing(): Progress
      reads this`score, this`highScore, this`currentLevel, this`canUseFireBreath, this`backgroundImage
    {
      Progress(score, highScore, currentLevel, canUseFireBreath, backgroundImage)
    }

    /** The fields as one value. */
    ghost function State(): T.State
      reads this
    {
      T.State(Standing(), lives, gameRunning, isPaused, characterX, characterY, characterDirection,
              canShoot, fireBreathActive, lastFireBreathTime, projectiles, enemies, hearts)
    }

    ghost predicate Valid()
      reads this
    {
      T.Valid(State())
    }

    /** The variables as the script initialises them, with the record read
        from storage (game.js:6-26, 46-47). */
    constructor (storedHighScore: int)
      requires storedHighScore >= 0
      ensures State() == T.Initial(storedHighScore)
      ensures Valid() && T.LivesConsistent(State())
    {
      score := 0;
      highScore := storedHighScore;
      lives := MaxLives;
      gameRunning := false;
      isPaused := false;
      currentLevel := 1;
      characterX := StartX;
      characterY := StartY;
      projectiles := [];
      enemies := [];
      hearts := [];
      canShoot := true;
      canUseFireBreath := false;
      fireBreathActive := false;
      lastFireBreathTime := 0;
      backgroundImage := Castle;
      characterDirection := Right;
      T.InitialValid(storedHighScore);
    }

    /** updateScore (game.js:150-180): adds the points, raises the record,
        recomputes the level and unlocks fire breath from level 3 on. */
    method UpdateScore(points: int)
      modifies this`score, this`highScore, this`currentLevel, this`canUseFireBreath, this`backgroundImage
      ensures Standing() == Score(old(Standing()), points)
    {
      score := score + points;
      if score > highScore {
        highScore := score;
      }
      var newLevel := currentLevel;
      if score >= 10 && score < 30 {
        newLevel := 2;
      } else if score >= 30 && score < 70 {
        newLevel := 3;
      } else if score >= 70 {
        newLevel := 4 + (score - 70) / 40;
      }
      if newLevel != currentLevel {
        currentLevel := newLevel;
        if currentLevel == 2 {
          backgroundImage := Another;
        }
      }
      if currentLevel >= 3 {
        canUseFireBreath := true;
      }
    }

    /** endGame (game.js:187-191). */
    method EndGame()
      modifies this`gameRunning
      ensures !gameRunning
    {
      gameRunning := false;
    }

    /** spawnEnemy (game.js:265-271) with its three random draws given. */
    method SpawnEnemy(d: EnemyDraw)
      requires IsEnemyDraw(d)
      modifies this`enemies
      ensures State() == T.SpawnEnemy(old(State()), d)
    {
      var x := if d.side < LeftEdgeChance then 0.0 else MaxX as real;
      var y := d.height * MaxY as real;
      var kind := if d.kind < StrongChance then Strong else Normal;
      assert Enemy(x, y, kind) == T.SpawnedEnemy(d);
      enemies := enemies + [Enemy(x, y, kind)];
    }

    /** One firing of the spawn interval of spawnEnemies (game.js:415-419). */
    method SpawnTimerFired(d: EnemyDraw)
      requires IsEnemyDraw(d)
      modifies this`enemies
      ensures State() == T.SpawnTimerFired(old(State()), d)
      ensures |enemies| == |old(enemies)| + (if old(gameRunning) && !old(isPaused) then 1 else 0)
    {
      if gameRunning && !isPaused {
        SpawnEnemy(d);
      }
    }

    /** spawnHeart (game.js:284-288) with its two random draws given. */
    method SpawnHeart(rx: real, ry: real)
      requires IsRandom(rx) && IsRandom(ry)
      modifies this`hearts
      ensures State() == T.SpawnHeart(old(State()), rx, ry)
    {
      var x := rx * ((CanvasWidth - HeartSize) as real);
      var y := ry * ((CanvasHeight - HeartSize) as real);
      hearts := hearts + [Heart(x, y)];
    }

    /** startGame (game.js:399-405) up to its first enemy. */
    method StartGame(d: EnemyDraw)
      requires Valid() && IsEnemyDraw(d)
      modifies this`gameRunning, this`enemies
      ensures State() == T.StartGame(old(State()), d)
      ensures Valid()
    {
      gameRunning := true;
      SpawnEnemy(d);
    }

    /** restartGame (game.js:193-209) up to its first enemy. */
    method RestartGame(d: EnemyDraw)
      requires Valid() && IsEnemyDraw(d)
      modifies this`score, this`lives, this`projectiles, this`enemies, this`hearts,
               this`gameRunning, this`isPaused, this`currentLevel, this`backgroundImage
      ensures State() == T.RestartGame(old(State()), d)
      ensures Valid() && T.LivesConsistent(State())
    {
      ResetStanding();
      ResetRun();
      ClearLists();
      SpawnEnemy(d);
      T.RestartGameKeepsValid(old(State()), d);
    }

    /** The score, level and background resets of restartGame (game.js:195, 202-203). */
    method ResetStanding()
      modifies this`score, this`currentLevel, this`backgroundImage
      ensures Standing() == old(Standing()).(score := 0, level := 1, background := Castle)
    {
      score := 0;
      currentLevel := 1;
      backgroundImage := Castle;
    }

    /** The lives and run flags restartGame resets (game.js:196, 200-201). */
    method ResetRun()
      modifies this`lives, this`gameRunning, this`isPaused
      ensures State() == old(State()).(lives := MaxLives, gameRunning := true, isPaused := false)
    {
      lives := MaxLives;
      gameRunning := true;
      isPaused := false;
    }

    /** The three lists restartGame empties (game.js:197-199). */
    method ClearLists()
      modifies this`projectiles, this`enemies, this`hearts
      ensures State() == old(State()).(projectiles := [], enemies := [], hearts := [])
    {
      projectiles := [];
      enemies := [];
      hearts := [];
    }

    /** togglePause (game.js:389-392). */
    method TogglePause()
      requires Valid()
      modifies this`isPaused
      ensures State() == T.TogglePause(old(State()))
      ensures Valid()
    {
      isPaused := !isPaused;
    }

    /** moveCharacter (game.js:211-225): apply the held keys, then clamp. */
    method MoveCharacter(keys: Keys)
      requires Valid()
      modifies this`characterX, this`characterY, this`characterDirection
      ensures State() == T.MoveCharacter(old(State()), keys)
      ensures Valid()
    {
      var x, y, direction := characterX, characterY, characterDirection;
      if keys.w {
        y := y - CharacterSpeed;
      }
      if keys.s {
        y := y + CharacterSpeed;
      }
      if keys.a {
        x := x - CharacterSpeed;
        direction := Left;
      }
      if keys.d {
        x := x + CharacterSpeed;
        direction := Right;
      }
      characterX := Max(0, Min(x, CanvasWidth - SpriteSize));
      characterY := Max(0, Min(y, CanvasHeight - SpriteSize));
      characterDirection := direction;
      T.MoveCharacterSteps(old(State()), keys);
    }

    /** shootProjectile (game.js:227-241). */
    method ShootProjectile()
      requires Valid()
      modifies this`projectiles, this`canShoot
      ensures State() == T.ShootProjectile(old(State()))
      ensures Valid()
    {
      if canShoot {
        var projectile := Projectile(
          characterX + (if characterDirection == Right then 50 else -10),
          characterY + 20,
          characterDirection);
        projectiles := projectiles + [projectile];
        canShoot := false;
      }
    }

    /** The 300 ms timer callback of shootProjectile (game.js:237-239). */
    method ShotCooldownElapsed()
      requires Valid()
      modifies this`canShoot
      ensures State() == T.ShotCooldownElapsed(old(State()))
      ensures Valid()
    {
      canShoot := true;
    }

    /** moveProjectiles (game.js:243-252): move each one, then drop those
        off the canvas. */
    method MoveProjectiles()
      requires Valid()
      modifies this`projectiles
      ensures State() == T.MoveProjectiles(old(State()))
      ensures Valid()
    {
      var i := 0;
      while i < |projectiles|
        invariant 0 <= i <= |projectiles| == |old(projectiles)|
        invariant forall k :: 0 <= k < i ==> projectiles[k] == Advance(old(projectiles)[k])
        invariant forall k :: i <= k < |projectiles| ==> projectiles[k] == old(projectiles)[k]
      {
        var projectile := projectiles[i];
        if projectile.direction == Right {
          projectile := projectile.(x := projectile.x + ProjectileSpeed);
        } else {
          projectile := projectile.(x := projectile.x - ProjectileSpeed);
        }
        projectiles := projectiles[i := projectile];
        i := i + 1;
      }
      assert projectiles == AdvanceAll(old(projectiles));
      projectiles := KeepOnCanvas(projectiles);
    }

    /** activateFireBreath (game.js:254-263): `now` is the clock read of the
        guard and `recordedAt` the later read it stores. */
    method ActivateFireBreath(now: int, recordedAt: int)
      requires Valid()
      modifies this`fireBreathActive, this`lastFireBreathTime
      ensures State() == T.ActivateFireBreath(old(State()), now, recordedAt)
      ensures Valid()
    {
      if canUseFireBreath && now - lastFireBreathTime >= FireBreathCooldown {
        fireBreathActive := true;
        lastFireBreathTime := recordedAt;
      }
    }

    /** The 3000 ms timer callback of activateFireBreath (game.js:258-260). */
    method FireBreathElapsed()
      requires Valid()
      modifies this`fireBreathActive
      ensures State() == T.FireBreathElapsed(old(State()))
      ensures Valid()
    {
      fireBreathActive := false;
    }

    /** moveEnemies (game.js:273-282) with each enemy's step given. */
    method MoveEnemies(steps: seq<Vector>)
      requires Valid() && |steps| == |enemies|
      modifies this`enemies
      ensures State() == T.MoveEnemies(old(State()), steps)
      ensures Valid()
    {
      var i := 0;
      while i < |enemies|
        invariant 0 <= i <= |enemies| == |old(enemies)|
        invariant forall k :: 0 <= k < i ==> enemies[k] == Steer(old(enemies), steps)[k]
        invariant forall k :: i <= k < |enemies| ==> enemies[k] == old(enemies)[k]
      {
        var enemy := enemies[i];
        enemy := enemy.(x := enemy.x + steps[i].dx, y := enemy.y + steps[i].dy);
        enemies := enemies[i := enemy];
        i := i + 1;
      }
      assert enemies == Steer(old(enemies), steps);
    }

    /** The enemy loop of checkCollisions (game.js:291-305), over the enemies
        as they were when it started: the result of ContactPass, endGame when
        it takes the last life, and `thrown` when updateLives throws because
        the lives went below zero. */
    method ResolveContacts() returns (ended: bool, thrown: bool)
      modifies this`lives, this`enemies, this`gameRunning
      ensures var c := ContactPass(old(lives), [], old(enemies), characterX, characterY);
        ended == c.Fatal? && thrown == c.Thrown?
        && (c.Fatal? ==> lives == 0 && !gameRunning && enemies == c.remaining)
        && (c.Thrown? ==> lives == c.lives && enemies == c.remaining && gameRunning == old(gameRunning))
        && (c.Survived? ==> lives == c.lives && enemies == c.kept && gameRunning == old(gameRunning))
    {
      var cx, cy := characterX, characterY;
      var rest := enemies;
      var kept: seq<Enemy> := [];
      while rest != []
        invariant enemies == kept + rest
        invariant ContactPass(lives, kept, rest, cx, cy) == ContactPass(old(lives), [], old(enemies), cx, cy)
        invariant gameRunning == old(gameRunning)
        decreases |rest|
      {
        var enemy := rest[0];
        if Touches(cx, cy, enemy) {
          lives := lives - 1;
          if lives == 0 {
            EndGame();
            return true, false;
          }
          if lives < 0 {
            // `'❤️'.repeat(lives)` throws a RangeError out of the frame.
            return false, true;
          }
          RemoveAtJoin(kept, rest);
          enemies := RemoveAt(enemies, |kept|);
        } else {
          kept := kept + [enemy];
        }
        rest := rest[1..];
      }
      return false, false;
    }

    /** The projectile loop of checkCollisions (game.js:307-319): each
        projectile, in the order they were, against the enemies still alive,
        with one updateScore per kill. */
    method ResolveShots()
      modifies this`projectiles, this`enemies, this`score, this`highScore, this`currentLevel,
               this`canUseFireBreath, this`backgroundImage
      ensures var v := ShotPass([], old(projectiles), old(enemies), [], []);
        projectiles == v.projectiles && enemies == v.enemies
        && Standing() == ScoreKills(old(Standing()), v.kills)
    {
      ghost var kills: seq<Enemy> := [];
      ghost var spent: seq<Projectile> := [];
      var rest := projectiles;
      var kept: seq<Projectile> := [];
      while rest != []
        invariant projectiles == kept + rest
        invariant ShotPass(kept, rest, enemies, kills, spent) == ShotPass([], old(projectiles), old(enemies), [], [])
        invariant Standing() == ScoreKills(old(Standing()), kills)
        decreases |rest|
      {
        var projectile := rest[0];
        var target := FindTarget(projectile, enemies);
        if target.Some? {
          var victim := enemies[target.value];
          UpdateScore(Award(victim.kind));
          assert (kills + [victim])[..|kills|] == kills;
          enemies := RemoveAt(enemies, target.value);
          RemoveAtJoin(kept, rest);
          projectiles := RemoveAt(projectiles, |kept|);
          kills := kills + [victim];
          spent := spent + [projectile];
        } else {
          kept := kept + [projectile];
        }
        rest := rest[1..];
      }
    }

    /** The heart loop of checkCollisions (game.js:321-330). */
    method ResolvePickups()
      modifies this`lives, this`hearts
      ensures var h := HeartPass(old(lives), [], old(hearts), characterX, characterY);
        lives == h.lives && hearts == h.hearts
    {
      var cx, cy := characterX, characterY;
      var rest := hearts;
      var kept: seq<Heart> := [];
      while rest != []
        invariant hearts == kept + rest
        invariant HeartPass(lives, kept, rest, cx, cy) == HeartPass(old(lives), [], old(hearts), cx, cy)
        decreases |rest|
      {
        var heart := rest[0];
        if Reaches(cx, cy, heart) {
          lives := Min(lives + 1, MaxLives);
          RemoveAtJoin(kept, rest);
          hearts := RemoveAt(hearts, |kept|);
        } else {
          kept := kept + [heart];
        }
        rest := rest[1..];
      }
    }

    /** The enemy pass of checkCollisions on the whole state. */
    method ContactPhase() returns (ended: bool, thrown: bool)
      modifies this`lives, this`enemies, this`gameRunning
      ensures ended == T.ContactEnds(old(State())) && thrown == T.ContactThrows(old(State()))
      ensures State() == T.ContactPhase(old(State()))
    {
      ended, thrown := ResolveContacts();
    }

    /** The projectile pass of checkCollisions on the whole state. */
    method ShotPhase()
      modifies this`projectiles, this`enemies, this`score, this`highScore, this`currentLevel,
               this`canUseFireBreath, this`backgroundImage
      ensures State() == T.ShotPhase(old(State()))
    {
      ResolveShots();
    }

    /** The heart pass of checkCollisions on the whole state. */
    method PickupPhase()
      modifies this`lives, this`hearts
      ensures State() == T.PickupPhase(old(State()))
    {
      ResolvePickups();
    }

    /** checkCollisions (game.js:290-331): the enemy pass, and unless it ended
        the game or threw, the projectile pass and the heart pass. `thrown`
        reports the exception that leaves the call. */
    method CheckCollisions() returns (thrown: bool)
      modifies this`lives, this`enemies, this`gameRunning, this`projectiles, this`hearts,
               this`score, this`highScore, this`currentLevel, this`canUseFireBreath, this`backgroundImage
      ensures thrown == T.ContactThrows(old(State()))
      ensures State() == T.CheckCollisions(old(State()))
    {
      var ended;
      ended, thrown := ContactPhase();
      if ended || thrown {
        return;
      }
      ShotPhase();
      PickupPhase();
    }

    /** One frame of gameLoop (game.js:354-365), drawing left out. The result
        says whether the frame reached `requestAnimationFrame`: it does when
        the game was running, unless checkCollisions threw. */
    method GameLoop(keys: Keys, steps: seq<Vector>) returns (scheduled: bool)
      requires Valid() && |steps| == |enemies|
      modifies this
      ensures scheduled == T.NextFrameRequested(old(State()), keys, steps)
      ensures State() == T.GameLoop(old(State()), keys, steps)
      ensures Valid()
      ensures T.LivesConsistent(old(State())) ==> scheduled == old(gameRunning) && T.LivesConsistent(State())
    {
      ghost var s0 := State();
      T.GameLoopKeepsValid(s0, keys, steps);
      if T.LivesConsistent(s0) {
        T.GameLoopKeepsLives(s0, keys, steps);
        T.FrameRequestedWhileConsistent(s0, keys, steps);
      }
      scheduled := false;
      if gameRunning {
        if !isPaused {
          MoveCharacter(keys);
          MoveProjectiles();
          MoveEnemies(steps);
          var thrown := CheckCollisions();
          if thrown {
            return;
          }
        }
        scheduled := true;
      }
    }
  }
}
