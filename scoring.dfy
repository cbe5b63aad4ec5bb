/** Score, record and level: the part of the game state that `updateScore`
    writes (game.js:150-180). */
module Scoring {
  import opened Entities

  /** The variables updateScore updates: score, highScore, currentLevel,
      canUseFireBreath and the background image. */
  datatype Progress = Progress(
    score: int,
    highScore: int,
    level: int,
    fireBreathUnlocked: bool,
    background: Background)

  /** The level a run has reached at `score`, starting from level 1 at score 0. */
  function LevelFor(score: int): int {
    if score < 10 then 1
    else if score < 30 then 2
    else if score < 70 then 3
    else 4 + (score - 70) / 40
  }

  /** updateScore's level rule: below 10 points the level is kept as it is;
      otherwise a step formula of the score decides it. */
  function NextLevel(level: int, score: int): int {
    if score >= 10 && score < 30 then 2
    else if score >= 30 && score < 70 then 3
    else if score >= 70 then 4 + (score - 70) / 40
    else level
  }

  /** The effect of one updateScore(points) call. */
  function Score(p: Progress, points: int): Progress {
    var score := p.score + points;
    var level := NextLevel(p.level, score);
    Progress(
      score,
      if score > p.highScore then score else p.highScore,
      level,
      p.fireBreathUnlocked || level >= 3,
      if level != p.level && level == 2 then Another else p.background)
  }

  /** Points for killing an enemy: 10 for a strong one, 5 otherwise. */
  function Award(kind: EnemyKind): int {
    if kind == Strong then 10 else 5
  }

  /** Total points for a sequence of kills. */
  function Bounty(kills: seq<Enemy>): int {
    if kills == [] then 0
    else Bounty(kills[..|kills| - 1]) + Award(kills[|kills| - 1].kind)
  }

  /** The effect of one updateScore call per kill, in order. */
  function ScoreKills(p: Progress, kills: seq<Enemy>): Progress {
    if kills == [] then p
    else Score(ScoreKills(p, kills[..|kills| - 1]), Award(kills[|kills| - 1].kind))
  }

  /** What a run keeps true of its progress: the score is never negative nor
      above the record, the level is the one the score has reached, and from
      level 3 on fire breath is unlocked. */
  predicate ProgressValid(p: Progress) {
    0 <= p.score <= p.highScore
    && p.level == LevelFor(p.score)
    && (p.level >= 3 ==> p.fireBreathUnlocked)
  }

  /** The level never goes down as the score goes up. */
  lemma LevelForMonotone(a: int, b: int)
    requires a <= b
    ensures LevelFor(a) <= LevelFor(b)
  {
  }

  /** Level examples: 0 -> 1, 15 -> 2, 35 -> 3, 70 -> 4, 109 -> 4, 110 -> 5. */
  lemma LevelExamples()
    ensures LevelFor(0) == 1 && LevelFor(9) == 1 && LevelFor(15) == 2
    ensures LevelFor(35) == 3 && LevelFor(70) == 4 && LevelFor(109) == 4
    ensures LevelFor(110) == 5
  {
  }

  /** Starting from the level a score has reached, the rule of updateScore
      gives the level of any score not below it. */
  lemma NextLevelFollowsScore(level: int, before: int, after: int)
    requires 0 <= before <= after && level == LevelFor(before)
    ensures NextLevel(level, after) == LevelFor(after)
  {
  }

  /** One updateScore call with non-negative points adds exactly the points,
      raises the record to the score when the score passes it, never lowers
      the level and never locks fire breath again. */
  lemma ScoreStep(p: Progress, points: int)
    requires ProgressValid(p) && points >= 0
    ensures var q := Score(p, points);
      ProgressValid(q)
      && q.score == p.score + points
      && q.highScore == Max(p.highScore, q.score)
      && q.level == LevelFor(q.score) && q.level >= p.level
      && q.fireBreathUnlocked == (p.fireBreathUnlocked || q.level >= 3)
  {
  }

  /** Each kill is worth 5 or 10 points. */
  lemma {:induction false} BountyBounds(kills: seq<Enemy>)
    ensures 5 * |kills| <= Bounty(kills) <= 10 * |kills|
  {
    if kills != [] {
      BountyBounds(kills[..|kills| - 1]);
    }
  }

  /** Scoring a sequence of kills adds their bounty to the score, leaves the
      record at the larger of the old record and the new score, and leaves the
      level and the unlock as the new score decides. */
  lemma {:induction false} ScoreKillsSummary(p: Progress, kills: seq<Enemy>)
    requires ProgressValid(p)
    ensures var q := ScoreKills(p, kills);
      ProgressValid(q)
      && q.score == p.score + Bounty(kills)
      && q.highScore == Max(p.highScore, q.score)
      && q.level == LevelFor(q.score) && q.level >= p.level
      && q.fireBreathUnlocked == (p.fireBreathUnlocked || q.level >= 3)
  {
    if kills != [] {
      var front := kills[..|kills| - 1];
      ScoreKillsSummary(p, front);
      BountyBounds(front);
      ScoreStep(ScoreKills(p, front), Award(kills[|kills| - 1].kind));
    }
  }

  /** Scoring never locks fire breath again. */
  lemma {:induction false} ScoreKillsKeepsUnlock(p: Progress, kills: seq<Enemy>)
    requires p.fireBreathUnlocked
    ensures ScoreKills(p, kills).fireBreathUnlocked
  {
    if kills != [] {
      ScoreKillsKeepsUnlock(p, kills[..|kills| - 1]);
    }
  }
}
