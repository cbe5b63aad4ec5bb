/** Values the arena game works with: constants of the canvas and the
    character, and the records it keeps in its entity lists (game.js). */
module Entities {

  /** The canvas is 800 x 600 (game.js:3-4). */
  const CanvasWidth: int := 800
  const CanvasHeight: int := 600

  /** Sprites are 50 px squares; the character is clamped to the canvas minus
      one sprite, so its top-left corner stays within [0, 750] x [0, 550]. */
  const SpriteSize: int := 50
  const MaxX: int := CanvasWidth - SpriteSize
  const MaxY: int := CanvasHeight - SpriteSize

  /** Hearts are drawn 30 px wide and spawn within the canvas minus 30. */
  const HeartSize: int := 30

  const StartX: int := 100
  const StartY: int := 100
  const CharacterSpeed: int := 4
  const ProjectileSpeed: int := 10

  /** Fire breath may be used again 5000 ms after its last activation. */
  const FireBreathCooldown: int := 5000

  const MaxLives: int := 3

  /** Two things touch when their distance is below 50 px, that is when the
      squared distance is below 2500; the model never takes a square root. */
  const TouchRadiusSquared: real := 2500.0

  /** Chance below which a spawn draw picks the left edge, and below which it
      picks a strong enemy. */
  const LeftEdgeChance: real := 0.5
  const StrongChance: real := 0.3

  datatype Option<T> = None | Some(value: T)

  /** The script's 'left' / 'right' strings. */
  datatype Direction = Left | Right

  datatype EnemyKind = Normal | Strong

  /** The background image: the castle, or the one shown from level 2 on. */
  datatype Background = Castle | Another

  /** A projectile: its coordinates stay integral (spawned from the
      character's integral position, moved by 10). */
  datatype Projectile = Projectile(x: int, y: int, direction: Direction)

  /** An enemy: its coordinates come from random draws and normalised
      floating-point steps, so they are reals. There is no health field:
      every enemy dies from one hit. */
  datatype Enemy = Enemy(x: real, y: real, kind: EnemyKind)

  datatype Heart = Heart(x: real, y: real)

  /** The movement flags of the `keys` object that the key listeners set. */
  datatype Keys = Keys(w: bool, a: bool, s: bool, d: bool)

  /** One enemy's displacement in a frame, computed by the caller. */
  datatype Vector = Vector(dx: real, dy: real)

  /** The three `Math.random()` draws of one enemy spawn: the edge, the height
      and the kind. */
  datatype EnemyDraw = EnemyDraw(side: real, height: real, kind: real)

  /** What `Math.random()` can return. */
  predicate IsRandom(r: real) {
    0.0 <= r < 1.0
  }

  predicate IsEnemyDraw(d: EnemyDraw) {
    IsRandom(d.side) && IsRandom(d.height) && IsRandom(d.kind)
  }

  function Min(a: int, b: int): int {
    if a <= b then a else b
  }

  function Max(a: int, b: int): int {
    if a >= b then a else b
  }
}
