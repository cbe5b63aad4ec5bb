/** Movement rules: the character's step and clamp (game.js:211-225), where a
    shot starts (game.js:229-233), and how projectiles fly and leave the
    canvas (game.js:243-252). */
module Motion {
  import opened Entities

  /** `Math.max(lo, Math.min(v, hi))`: the nearest value in [lo, hi]. */
  function Clamp(v: int, lo: int, hi: int): (r: int)
    requires lo <= hi
    ensures lo <= r <= hi
    ensures lo <= v <= hi ==> r == v
    ensures v < lo ==> r == lo
    ensures v > hi ==> r == hi
  {
    Max(lo, Min(v, hi))
  }

  /** Displacement along one axis: `back` subtracts the character speed and
      `forth` adds it, so holding both cancels out. */
  function Axis(back: bool, forth: bool): (r: int)
    ensures back == forth ==> r == 0
    ensures forth && !back ==> r == CharacterSpeed
    ensures back && !forth ==> r == -CharacterSpeed
  {
    (if back then -CharacterSpeed else 0) + (if forth then CharacterSpeed else 0)
  }

  /** The facing after a move: 'd' makes it right, 'a' alone makes it left,
      otherwise it stays (the 'd' test runs after the 'a' test). */
  function Facing(direction: Direction, keys: Keys): Direction {
    if keys.d then Right else if keys.a then Left else direction
  }

  /** The projectile a shot creates: 50 px right of the character when it
      faces right, 10 px left of it otherwise, 20 px below its top. */
  function Muzzle(x: int, y: int, direction: Direction): Projectile {
    Projectile(x + (if direction == Right then SpriteSize else -10), y + 20, direction)
  }

  /** One frame of flight: 10 px along the projectile's direction. */
  function Advance(p: Projectile): (q: Projectile)
    ensures q.y == p.y && q.direction == p.direction
    ensures q.x - p.x == (if p.direction == Right then ProjectileSpeed else -ProjectileSpeed)
  {
    if p.direction == Right then p.(x := p.x + ProjectileSpeed)
    else p.(x := p.x - ProjectileSpeed)
  }

  function AdvanceAll(ps: seq<Projectile>): seq<Projectile> {
    seq(|ps|, i requires 0 <= i < |ps| => Advance(ps[i]))
  }

  /** The filter of moveProjectiles keeps a projectile whose x is in [0, 800]. */
  predicate OnCanvas(p: Projectile) {
    0 <= p.x <= CanvasWidth
  }

  /** The projectiles of `ps` that are still on the canvas, in order. */
  function KeepOnCanvas(ps: seq<Projectile>): (r: seq<Projectile>)
    ensures |r| <= |ps|
    ensures forall p :: p in r <==> p in ps && OnCanvas(p)
  {
    if ps == [] then []
    else if OnCanvas(ps[0]) then [ps[0]] + KeepOnCanvas(ps[1..])
    else KeepOnCanvas(ps[1..])
  }

  /** The filter keeps the order: filtering a concatenation filters each part. */
  lemma {:induction false} KeepOnCanvasAppend(a: seq<Projectile>, b: seq<Projectile>)
    ensures KeepOnCanvas(a + b) == KeepOnCanvas(a) + KeepOnCanvas(b)
  {
    if a != [] {
      assert (a + b)[1..] == a[1..] + b;
      KeepOnCanvasAppend(a[1..], b);
    } else {
      assert a + b == b;
    }
  }

  /** moveEnemies with the displacements supplied: each enemy moves by its
      vector and keeps its kind. */
  function Steer(es: seq<Enemy>, steps: seq<Vector>): (r: seq<Enemy>)
    requires |steps| == |es|
    ensures |r| == |es|
    ensures forall i :: 0 <= i < |es| ==>
      r[i].x == es[i].x + steps[i].dx && r[i].y == es[i].y + steps[i].dy && r[i].kind == es[i].kind
  {
    seq(|es|, i requires 0 <= i < |es| => es[i].(x := es[i].x + steps[i].dx, y := es[i].y + steps[i].dy))
  }
}
