/** The hero: a creature with a level, experience and gold, and the levelling loop. */
module Heroes {
  import opened Creatures

  /** Levels start at 1 and only grow. Below 1 the threshold `100 * 2 ** (level - 1)`
      would be a fraction, which this model does not admit. */
  type Level = l: int | l >= 1 witness 1

  datatype Hero = Hero(body: Creature, level: Level, exp: int, gold: int)

  /** The notification sent once per level gained. */
  const LevelUpText: string := "level up!"

  /** Where a new hero stands. */
  const StartPosition: Position := Position(1, 1)

  function Pow2(n: nat): (p: nat)
    ensures p >= 1
  {
    if n == 0 then 1 else 2 * Pow2(n - 1)
  }

  /** Experience needed to leave `level`: 100, 200, 400, ... */
  function Threshold(level: Level): (t: nat)
    ensures t >= 100
  {
    100 * Pow2(level - 1)
  }

  /** Each level's threshold is twice the one before: the geometric growth that makes the
      levelling loop stop. */
  lemma ThresholdDoubles(level: Level)
    ensures Threshold(level + 1) == 2 * Threshold(level)
  {
  }

  /** True when the levelling loop has nothing left to do for this hero. */
  predicate Settled(h: Hero) {
    h.exp < Threshold(h.level)
  }

  /** `Hero.__init__`: level 1, no experience, no gold, at the start position, at full health. */
  function NewHero(stats: Stats, sprite: Sprite): (h: Hero)
    ensures h.level == 1 && h.exp == 0 && h.gold == 0
    ensures h.body.position == StartPosition
    ensures h.body.stats == stats && h.body.sprite == sprite
    ensures h.body.hp == h.body.maxHp == MaxHpFor(stats.endurance)
    ensures Settled(h)
  {
    Hero(NewCreature(sprite, stats, StartPosition), 1, 0, 0)
  }

  /** One crossing of the loop body: level, strength and endurance go up, the maximum is
      recomputed and current hit points are refilled to it. */
  function Advance(h: Hero): (r: Hero)
    ensures r.level == h.level + 1
    ensures r.body.stats == h.body.stats.(strength := h.body.stats.strength + 2,
                                          endurance := h.body.stats.endurance + 2)
    ensures r.body.maxHp == MaxHpFor(h.body.stats.endurance) + 4
    ensures r.body.hp == r.body.maxHp
    ensures r.exp == h.exp && r.gold == h.gold
    ensures r.body.position == h.body.position && r.body.sprite == h.body.sprite
  {
    var stats := h.body.stats.(strength := h.body.stats.strength + 2,
                               endurance := h.body.stats.endurance + 2);
    var body := CalcMaxHp(h.body.(stats := stats));
    h.(level := h.level + 1, body := body.(hp := body.maxHp))
  }

  /** Where a levelling loop started at `start` with experience `exp` may stop: at a level
      whose threshold exceeds `exp`, every earlier level from `start` on having been paid for. */
  predicate StopsAt(exp: int, start: Level, stop: Level) {
    && start <= stop
    && exp < Threshold(stop)
    && forall l: Level :: start <= l < stop ==> Threshold(l) <= exp
  }

  /** The hero after levelling, and the messages produced, in order. */
  datatype LevelOutcome = LevelOutcome(hero: Hero, messages: seq<string>)

  /** `Hero.level_up`: cross every threshold the experience allows, one message per crossing.
      The loop stops at the first level whose threshold exceeds the experience, every
      level passed on the way was paid for, and each level is worth +2 strength,
      +2 endurance and a refill to the recomputed maximum. */
  function LevelUp(h: Hero): (r: LevelOutcome)
    decreases h.exp - Threshold(h.level)
    ensures r.hero.level >= h.level
    ensures Settled(r.hero)
    ensures StopsAt(h.exp, h.level, r.hero.level)
    ensures |r.messages| == r.hero.level - h.level
    ensures forall i :: 0 <= i < |r.messages| ==> r.messages[i] == LevelUpText
    ensures r.hero.exp == h.exp && r.hero.gold == h.gold
    ensures r.hero.body.position == h.body.position && r.hero.body.sprite == h.body.sprite
    ensures r.hero.body.stats == h.body.stats.(strength := h.body.stats.strength + 2 * (r.hero.level - h.level),
                                               endurance := h.body.stats.endurance + 2 * (r.hero.level - h.level))
    ensures r.hero.level > h.level ==> r.hero.body.hp == r.hero.body.maxHp == MaxHpFor(r.hero.body.stats.endurance)
    ensures r.hero.level == h.level <==> Settled(h)
    ensures Settled(h) ==> r.hero == h && r.messages == []
  {
    if h.exp < Threshold(h.level) then LevelOutcome(h, [])
    else
      var rest := LevelUp(Advance(h));
      LevelOutcome(rest.hero, [LevelUpText] + rest.messages)
  }

  /** Reference definition of where levelling ends, independent of any starting level:
      the first level (counting from 1) whose threshold exceeds `exp`, found by halving. */
  function LevelForExp(exp: int): (l: Level)
    ensures exp < Threshold(l)
    ensures l > 1 ==> Threshold(l - 1) <= exp
  {
    if exp < 100 then 1 else 1 + LevelForExp(exp / 2)
  }

  lemma {:induction false} ThresholdMonotone(a: Level, b: Level)
    requires a <= b
    ensures Threshold(a) <= Threshold(b)
    decreases b - a
  {
    if a < b {
      ThresholdMonotone(a, b - 1);
      assert Pow2(b - 1) == 2 * Pow2(b - 2);
    }
  }

  /** There is only one such level. */
  lemma StopsAtUnique(exp: int, start: Level, a: Level, b: Level)
    requires StopsAt(exp, start, a) && StopsAt(exp, start, b)
    ensures a == b
  {
  }

  /** The loop started at `start` may stop at the larger of `start` and the reference level. */
  lemma StopsAtReference(exp: int, start: Level)
    ensures StopsAt(exp, start, if start >= LevelForExp(exp) then start else LevelForExp(exp))
  {
    var target := LevelForExp(exp);
    if start >= target {
      ThresholdMonotone(target, start);
    } else {
      forall l: Level | start <= l < target
        ensures Threshold(l) <= exp
      {
        ThresholdMonotone(l, target - 1);
      }
    }
  }

  /** Levelling from any start ends at the larger of the start and the reference level. */
  lemma LevelUpClosedForm(h: Hero)
    ensures LevelUp(h).hero.level == if h.level >= LevelForExp(h.exp) then h.level else LevelForExp(h.exp)
  {
    var reached := LevelUp(h).hero.level;
    StopsAtReference(h.exp, h.level);
    StopsAtUnique(h.exp, h.level, reached, if h.level >= LevelForExp(h.exp) then h.level else LevelForExp(h.exp));
  }

  /** The loop never gains more levels than the experience pays for: each crossing costs at
      least 100 more experience than the one before. */
  lemma {:induction false} ThresholdAtLeastLinear(l: Level)
    ensures Threshold(l) >= 100 * l
  {
    if l > 1 {
      ThresholdAtLeastLinear(l - 1);
      assert Pow2(l - 1) == 2 * Pow2(l - 2);
    }
  }

  lemma LevelUpBound(h: Hero)
    ensures var r := LevelUp(h).hero;
            r.level == h.level || 100 * (r.level - 1) <= h.exp
  {
    var r := LevelUp(h).hero;
    if r.level > h.level {
      var last: Level := r.level - 1;
      assert Threshold(last) <= h.exp;
      ThresholdAtLeastLinear(last);
    }
  }

  /** Levelling twice is levelling once: the second call finds nothing to do. */
  lemma LevelUpIdempotent(h: Hero)
    ensures LevelUp(LevelUp(h).hero) == LevelOutcome(LevelUp(h).hero, [])
  {
  }

  /** A new hero given 250 experience crosses 100 and 200 and stops at level 3, below 400. */
  lemma LevelUpFromTwoFifty(stats: Stats, sprite: Sprite)
    ensures var r := LevelUp(NewHero(stats, sprite).(exp := 250));
            && r.hero.level == 3
            && r.messages == [LevelUpText, LevelUpText]
            && r.hero.body.stats.strength == stats.strength + 4
            && r.hero.body.stats.endurance == stats.endurance + 4
            && r.hero.body.hp == r.hero.body.maxHp == MaxHpFor(stats.endurance + 4)
  {
  }
}
