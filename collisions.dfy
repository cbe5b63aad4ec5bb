/** The three passes of checkCollisions (game.js:290-331), each over the list
    as it stood when its loop started: the character against the enemies,
    every projectile against the enemies still alive, the character against
    the hearts. Each pass is written as a function that walks the list front
    to back with the part already kept as an accumulator, as the script's
    loops do. */
module Collisions {
  import opened Entities

  /** Distance below 50 between (x1, y1) and (x2, y2), without the square root. */
  predicate Near(x1: real, y1: real, x2: real, y2: real) {
    (x1 - x2) * (x1 - x2) + (y1 - y2) * (y1 - y2) < TouchRadiusSquared
  }

  /** The character at (cx, cy) touches enemy `e`. */
  predicate Touches(cx: int, cy: int, e: Enemy) {
    Near(cx as real, cy as real, e.x, e.y)
  }

  /** Projectile `p` hits enemy `e`. */
  predicate Hits(p: Projectile, e: Enemy) {
    Near(p.x as real, p.y as real, e.x, e.y)
  }

  /** The character at (cx, cy) picks up heart `h`. */
  predicate Reaches(cx: int, cy: int, h: Heart) {
    Near(cx as real, cy as real, h.x, h.y)
  }

  /** `list.filter(x => x !== item)` for the item at position k: the script's
      entities are distinct objects, so the filter drops exactly that one. */
  function RemoveAt<T>(s: seq<T>, k: nat): (r: seq<T>)
    requires k < |s|
    ensures |r| == |s| - 1
  {
    s[..k] + s[k + 1..]
  }

  /** The removal takes exactly the one element out. */
  lemma RemoveAtTakesOne<T>(s: seq<T>, k: nat)
    requires k < |s|
    ensures multiset(RemoveAt(s, k)) + multiset{s[k]} == multiset(s)
  {
    assert s == s[..k] + [s[k]] + s[k + 1..];
  }

  /** Removing the first element after a prefix leaves the prefix and the
      tail. */
  lemma RemoveAtJoin<T>(kept: seq<T>, rest: seq<T>)
    requires rest != []
    ensures RemoveAt(kept + rest, |kept|) == kept + rest[1..]
  {
  }

  // ---- The character against the enemies (game.js:291-305) ----

  /** How many of `es` the character at (cx, cy) touches. */
  function TouchCount(cx: int, cy: int, es: seq<Enemy>): nat {
    if es == [] then 0
    else (if Touches(cx, cy, es[0]) then 1 else 0) + TouchCount(cx, cy, es[1..])
  }

  /** The enemies of `es` that the character at (cx, cy) does not touch, in order. */
  function Untouched(cx: int, cy: int, es: seq<Enemy>): seq<Enemy> {
    if es == [] then []
    else if Touches(cx, cy, es[0]) then Untouched(cx, cy, es[1..])
    else [es[0]] + Untouched(cx, cy, es[1..])
  }

  /** How the enemy pass ends: the character survives with some lives and
      the enemies kept; or a touch takes the last life and the pass stops with
      the enemies as they are at that moment (the fatal one is not removed);
      or a touch leaves lives below zero, `updateLives` throws on
      `'❤️'.repeat(lives)` (game.js:183, 302) and the pass stops there with
      the lives already decremented and the touching enemy not removed. */
  datatype Contact =
    | Survived(lives: int, kept: seq<Enemy>)
    | Fatal(remaining: seq<Enemy>)
    | Thrown(lives: int, remaining: seq<Enemy>)

  /** The enemy pass from the point where `kept` survives so far and `rest`
      is still to be looked at: each touch costs a life and removes the enemy,
      unless the life lost was the last one (`lives === 0`) or the lives went
      below zero. */
  function ContactPass(lives: int, kept: seq<Enemy>, rest: seq<Enemy>, cx: int, cy: int): Contact
    decreases |rest|
  {
    if rest == [] then Survived(lives, kept)
    else if Touches(cx, cy, rest[0]) then
      if lives - 1 == 0 then Fatal(kept + rest)
      else if lives - 1 < 0 then Thrown(lives - 1, kept + rest)
      else ContactPass(lives - 1, kept, rest[1..], cx, cy)
    else ContactPass(lives, kept + [rest[0]], rest[1..], cx, cy)
  }

  /** When the character survives the pass, it lost one life per touching
      enemy and exactly the touching enemies are gone, the rest in order. */
  lemma {:induction false} ContactSurvived(lives: int, kept: seq<Enemy>, rest: seq<Enemy>, cx: int, cy: int)
    ensures var c := ContactPass(lives, kept, rest, cx, cy);
      c.Survived? ==> c.lives == lives - TouchCount(cx, cy, rest) && c.kept == kept + Untouched(cx, cy, rest)
    decreases |rest|
  {
    if rest != [] {
      if Touches(cx, cy, rest[0]) {
        if lives - 1 != 0 {
          ContactSurvived(lives - 1, kept, rest[1..], cx, cy);
        }
      } else {
        ContactSurvived(lives, kept + [rest[0]], rest[1..], cx, cy);
        assert kept + [rest[0]] + Untouched(cx, cy, rest[1..]) == kept + Untouched(cx, cy, rest);
      }
    }
  }

  /** With at least one life, the pass ends the game exactly when the
      character touches at least as many enemies as it has lives, and it
      never throws. */
  lemma {:induction false} ContactFatalIff(lives: int, kept: seq<Enemy>, rest: seq<Enemy>, cx: int, cy: int)
    requires lives >= 1
    ensures ContactPass(lives, kept, rest, cx, cy).Fatal? <==> TouchCount(cx, cy, rest) >= lives
    ensures !ContactPass(lives, kept, rest, cx, cy).Thrown?
    decreases |rest|
  {
    if rest != [] {
      if Touches(cx, cy, rest[0]) {
        if lives - 1 != 0 {
          ContactFatalIff(lives - 1, kept, rest[1..], cx, cy);
        }
      } else {
        ContactFatalIff(lives, kept + [rest[0]], rest[1..], cx, cy);
      }
    }
  }

  /** When the pass ends the game, exactly lives - 1 enemies were removed
      before it stopped. */
  lemma {:induction false} ContactFatalRemaining(lives: int, kept: seq<Enemy>, rest: seq<Enemy>, cx: int, cy: int)
    requires lives >= 1
    ensures var c := ContactPass(lives, kept, rest, cx, cy);
      c.Fatal? ==> |c.remaining| == |kept| + |rest| - (lives - 1)
    decreases |rest|
  {
    if rest != [] {
      if Touches(cx, cy, rest[0]) {
        if lives - 1 != 0 {
          ContactFatalRemaining(lives - 1, kept, rest[1..], cx, cy);
        }
      } else {
        ContactFatalRemaining(lives, kept + [rest[0]], rest[1..], cx, cy);
      }
    }
  }

  /** With no life left at the start the `lives === 0` test never fires:
      the first touch throws, with one life less and no enemy removed, and
      without a touch the pass keeps every enemy. */
  lemma {:induction false} ContactThrowsBelowOne(lives: int, kept: seq<Enemy>, rest: seq<Enemy>, cx: int, cy: int)
    requires lives <= 0
    ensures var c := ContactPass(lives, kept, rest, cx, cy);
      !c.Fatal?
      && (c.Thrown? <==> TouchCount(cx, cy, rest) >= 1)
      && (c.Thrown? ==> c.lives == lives - 1 && c.remaining == kept + rest)
      && (c.Survived? ==> c.lives == lives && c.kept == kept + rest)
    decreases |rest|
  {
    if rest != [] && !Touches(cx, cy, rest[0]) {
      ContactThrowsBelowOne(lives, kept + [rest[0]], rest[1..], cx, cy);
      assert kept + [rest[0]] + rest[1..] == kept + rest;
    }
  }

  // ---- The projectiles against the enemies (game.js:307-319) ----

  /** The enemy the inner loop stops at: the first one `p` hits. */
  function FirstHit(p: Projectile, es: seq<Enemy>): (r: Option<nat>)
    ensures r.Some? ==> r.value < |es| && Hits(p, es[r.value])
    ensures r.Some? ==> forall k :: 0 <= k < r.value ==> !Hits(p, es[k])
    ensures r.None? ==> forall k :: 0 <= k < |es| ==> !Hits(p, es[k])
  {
    if es == [] then None
    else if Hits(p, es[0]) then Some(0)
    else match FirstHit(p, es[1..])
      case None => None
      case Some(k) => Some(k + 1)
  }

  /** How the projectile pass ends: the projectiles that hit nothing, the
      enemies still alive, the enemies killed in the order they died, and the
      projectile spent on each kill. */
  datatype Volley = Volley(
    projectiles: seq<Projectile>,
    enemies: seq<Enemy>,
    kills: seq<Enemy>,
    spent: seq<Projectile>)

  /** The projectile pass from the point where `kept` have flown on, `rest`
      are still to be looked at, `es` are alive, `kills` are dead and `spent`
      hit them: a projectile that hits an enemy removes it and itself. */
  function ShotPass(kept: seq<Projectile>, rest: seq<Projectile>, es: seq<Enemy>,
                    kills: seq<Enemy>, spent: seq<Projectile>): Volley
    decreases |rest|
  {
    if rest == [] then Volley(kept, es, kills, spent)
    else match FirstHit(rest[0], es)
      case None => ShotPass(kept + [rest[0]], rest[1..], es, kills, spent)
      case Some(k) => ShotPass(kept, rest[1..], RemoveAt(es, k), kills + [es[k]], spent + [rest[0]])
  }

  /** No enemy dies twice and none appears from nowhere: the enemies alive and
      the kills together are the enemies there were; every projectile either
      flies on or was spent on exactly one kill; the earlier kills stay first. */
  lemma {:induction false} ShotPassAccounting(kept: seq<Projectile>, rest: seq<Projectile>, es: seq<Enemy>,
                                              kills: seq<Enemy>, spent: seq<Projectile>)
    ensures var v := ShotPass(kept, rest, es, kills, spent);
      multiset(v.enemies) + multiset(v.kills) == multiset(es) + multiset(kills)
      && |v.projectiles| + |v.kills| == |kept| + |rest| + |kills|
      && |kills| <= |v.kills| && v.kills[..|kills|] == kills
    decreases |rest|
  {
    if rest != [] {
      match FirstHit(rest[0], es)
      case None =>
        ShotPassAccounting(kept + [rest[0]], rest[1..], es, kills, spent);
      case Some(k) =>
        ShotPassAccounting(kept, rest[1..], RemoveAt(es, k), kills + [es[k]], spent + [rest[0]]);
        RemoveAtTakesOne(es, k);
        var v := ShotPass(kept, rest[1..], RemoveAt(es, k), kills + [es[k]], spent + [rest[0]]);
        assert v.kills[..|kills|] == (kills + [es[k]])[..|kills|];
    }
  }

  /** Every enemy still alive after the removal was alive before it. */
  lemma RemoveAtKeepsMembers<T>(s: seq<T>, k: nat, x: T)
    requires k < |s| && x in RemoveAt(s, k)
    ensures x in s
  {
    RemoveAtTakesOne(s, k);
  }

  /** The hit rule of the pass: a projectile that flies on missed every enemy
      alive at its turn, so no projectile left is in reach of an enemy left;
      each kill was in reach of the projectile spent on it; and the
      projectiles spent and those flying on are exactly the projectiles there
      were. */
  lemma {:induction false} ShotPassHits(kept: seq<Projectile>, rest: seq<Projectile>, es: seq<Enemy>,
                                        kills: seq<Enemy>, spent: seq<Projectile>)
    requires forall p, e :: p in kept && e in es ==> !Hits(p, e)
    requires |spent| == |kills| && forall i :: 0 <= i < |kills| ==> Hits(spent[i], kills[i])
    ensures var v := ShotPass(kept, rest, es, kills, spent);
      (forall p, e :: p in v.projectiles && e in v.enemies ==> !Hits(p, e))
      && |v.spent| == |v.kills|
      && (forall i :: 0 <= i < |v.kills| ==> Hits(v.spent[i], v.kills[i]))
      && multiset(v.projectiles) + multiset(v.spent) == multiset(kept + rest) + multiset(spent)
    decreases |rest|
  {
    if rest != [] {
      assert kept + rest == kept + [rest[0]] + rest[1..];
      match FirstHit(rest[0], es)
      case None =>
        forall p, e | p in kept + [rest[0]] && e in es
          ensures !Hits(p, e)
        {
          if p == rest[0] {
            var i :| 0 <= i < |es| && es[i] == e;
          }
        }
        ShotPassHits(kept + [rest[0]], rest[1..], es, kills, spent);
      case Some(k) =>
        forall p, e | p in kept && e in RemoveAt(es, k)
          ensures !Hits(p, e)
        {
          RemoveAtKeepsMembers(es, k, e);
        }
        ShotPassHits(kept, rest[1..], RemoveAt(es, k), kills + [es[k]], spent + [rest[0]]);
    }
  }

  /** One projectile in reach of two enemies kills only the first. */
  lemma OneProjectileOneKill(p: Projectile, e1: Enemy, e2: Enemy)
    requires Hits(p, e1) && Hits(p, e2)
    ensures ShotPass([], [p], [e1, e2], [], []) == Volley([], [e2], [e1], [p])
  {
  }

  /** Two projectiles in reach of one enemy score it once: the second flies on. */
  lemma OneEnemyScoredOnce(p1: Projectile, p2: Projectile, e: Enemy)
    requires Hits(p1, e) && Hits(p2, e)
    ensures ShotPass([], [p1, p2], [e], [], []) == Volley([p2], [], [e], [p1])
  {
    assert [p1, p2][1..] == [p2];
    assert RemoveAt([e], 0) == [];
    assert FirstHit(p1, [e]) == Some(0);
    assert [] + [[e][0]] == [e];
    assert [] + [[p1, p2][0]] == [p1];
    assert ShotPass([], [p1, p2], [e], [], []) == ShotPass([], [p2], [], [e], [p1]);
    assert ShotPass([], [p2], [], [e], [p1]) == ShotPass([p2], [], [], [e], [p1]);
  }

  // ---- The character against the hearts (game.js:321-330) ----

  function ReachCount(cx: int, cy: int, hs: seq<Heart>): nat {
    if hs == [] then 0
    else (if Reaches(cx, cy, hs[0]) then 1 else 0) + ReachCount(cx, cy, hs[1..])
  }

  function Unreached(cx: int, cy: int, hs: seq<Heart>): seq<Heart> {
    if hs == [] then []
    else if Reaches(cx, cy, hs[0]) then Unreached(cx, cy, hs[1..])
    else [hs[0]] + Unreached(cx, cy, hs[1..])
  }

  /** Lives after n pickups, each of which adds one life up to three. */
  function Healed(lives: int, n: nat): int {
    if n == 0 then lives else Min(lives + n, MaxLives)
  }

  datatype Healing = Healing(lives: int, hearts: seq<Heart>)

  /** The heart pass: each heart in reach gives a life (at most three) and
      is removed. */
  function HeartPass(lives: int, kept: seq<Heart>, rest: seq<Heart>, cx: int, cy: int): Healing
    decreases |rest|
  {
    if rest == [] then Healing(lives, kept)
    else if Reaches(cx, cy, rest[0]) then HeartPass(Min(lives + 1, MaxLives), kept, rest[1..], cx, cy)
    else HeartPass(lives, kept + [rest[0]], rest[1..], cx, cy)
  }

  /** The heart pass removes exactly the hearts in reach, keeps the others in
      order, and adds one life per pickup with a cap of three. */
  lemma {:induction false} HeartPassSummary(lives: int, kept: seq<Heart>, rest: seq<Heart>, cx: int, cy: int)
    ensures var h := HeartPass(lives, kept, rest, cx, cy);
      h.lives == Healed(lives, ReachCount(cx, cy, rest)) && h.hearts == kept + Unreached(cx, cy, rest)
    decreases |rest|
  {
    if rest != [] {
      if Reaches(cx, cy, rest[0]) {
        HeartPassSummary(Min(lives + 1, MaxLives), kept, rest[1..], cx, cy);
      } else {
        HeartPassSummary(lives, kept + [rest[0]], rest[1..], cx, cy);
        assert kept + [rest[0]] + Unreached(cx, cy, rest[1..]) == kept + Unreached(cx, cy, rest);
      }
    }
  }

  /** Lives within [lo, 3] stay within [lo, 3] after any number of pickups. */
  lemma HealedInRange(lives: int, n: nat)
    requires lives <= MaxLives
    ensures lives <= Healed(lives, n) <= MaxLives
  {
  }
}
