/** What happens when the hero steps onto an enemy or an ally: the engine's score,
    continue flag and notification log, and the hero's experience, hit points and level. */
module Interactions {
  import opened Creatures
  import opened Heroes
  import opened Text

  /** The part of the game engine that interactions touch. `log` holds every notification
      sent so far, oldest first. */
  datatype Engine = Engine(score: int, gameProcess: bool, log: seq<string>)

  /** The two objects every interaction receives and may change. */
  datatype World = World(engine: Engine, hero: Hero)

  const GameOverText: string := "Game over"

  /** The notification sink: appends one message to the log and changes nothing else. */
  function Notify(e: Engine, message: string): (r: Engine)
    ensures |r.log| == |e.log| + 1 && r.log[..|e.log|] == e.log && r.log[|e.log|] == message
    ensures r.score == e.score && r.gameProcess == e.gameProcess
  {
    e.(log := e.log + [message])
  }

  /** `int(0.2 * xp)`: a fifth of `xp`, truncated toward zero as Python's `int` does. */
  function Damage(xp: int): (d: int)
    ensures xp >= 0 ==> 0 <= 5 * d <= xp < 5 * d + 5
    ensures xp < 0 ==> 5 * d - 5 < xp <= 5 * d <= 0
  {
    if xp >= 0 then xp / 5 else -((-xp) / 5)
  }

  /** The two notifications of a survived fight. */
  function ExpText(xp: int): (s: string)
    ensures |s| > 5 && s[0] == '+' && s[|s| - 4..] == " exp"
    ensures s[1..|s| - 4] == IntToDecimal(xp)
  {
    "+" + IntToDecimal(xp) + " exp"
  }

  function HpText(xp: int): (s: string)
    ensures |s| > 4 && s[0] == '-' && s[|s| - 3..] == " hp"
    ensures s[1..|s| - 3] == IntToDecimal(Damage(xp))
  {
    "-" + IntToDecimal(Damage(xp)) + " hp"
  }

  datatype Enemy = Enemy(body: Creature, xp: int)

  /** `Enemy.__init__`: a creature built from its arguments, carrying an experience reward. */
  function NewEnemy(sprite: Sprite, stats: Stats, xp: int, position: Position): (e: Enemy)
    ensures e.xp == xp
    ensures e.body.sprite == sprite && e.body.stats == stats && e.body.position == position
    ensures e.body.hp == e.body.maxHp == MaxHpFor(stats.endurance)
  {
    Enemy(NewCreature(sprite, stats, position), xp)
  }

  /** The hero after taking the hit: reward added, a fifth of it taken from hit points. */
  function Struck(h: Hero, xp: int): (r: Hero)
    ensures r.exp == h.exp + xp
    ensures r.body.hp == h.body.hp - Damage(xp)
    ensures r.level == h.level && r.gold == h.gold
    ensures r.body.stats == h.body.stats && r.body.maxHp == h.body.maxHp
    ensures r.body.position == h.body.position && r.body.sprite == h.body.sprite
  {
    h.(exp := h.exp + xp, body := h.body.(hp := h.body.hp - Damage(xp)))
  }

  /** The fight ends the game exactly when it leaves the hero with negative hit points. */
  predicate IsFatal(enemy: Enemy, h: Hero)
    ensures IsFatal(enemy, h) <==> Struck(h, enemy.xp).body.hp < 0
    ensures h.body.hp == Damage(enemy.xp) ==> !IsFatal(enemy, h)
  {
    h.body.hp - Damage(enemy.xp) < 0
  }

  /** `Enemy.interact`. The hit is always taken. A fatal hit sends only "Game over", clears
      the continue flag and stops: no score, no levelling. Otherwise the score goes up by
      one, "+xp exp" and "-damage hp" are sent in that order, and the level-up
      notifications follow. */
  function EnemyInteract(enemy: Enemy, w: World): (r: World)
    ensures r.hero.exp == w.hero.exp + enemy.xp
    ensures r.hero.gold == w.hero.gold && r.hero.body.position == w.hero.body.position
    ensures IsFatal(enemy, w.hero) ==>
              && r.hero == Struck(w.hero, enemy.xp)
              && r.engine == w.engine.(gameProcess := false, log := w.engine.log + [GameOverText])
    ensures !IsFatal(enemy, w.hero) ==>
              && r.engine.score == w.engine.score + 1
              && r.engine.gameProcess == w.engine.gameProcess
              && r.hero.level >= w.hero.level
              && |r.engine.log| == |w.engine.log| + 2 + (r.hero.level - w.hero.level)
              && r.engine.log[..|w.engine.log| + 2] == w.engine.log + [ExpText(enemy.xp), HpText(enemy.xp)]
              && (forall i :: |w.engine.log| + 2 <= i < |r.engine.log| ==> r.engine.log[i] == LevelUpText)
              && Settled(r.hero)
              && StopsAt(w.hero.exp + enemy.xp, w.hero.level, r.hero.level)
              && r.hero.body.stats == w.hero.body.stats.(strength := w.hero.body.stats.strength + 2 * (r.hero.level - w.hero.level),
                                                         endurance := w.hero.body.stats.endurance + 2 * (r.hero.level - w.hero.level))
              && r.hero.body.sprite == w.hero.body.sprite
              && (r.hero.level == w.hero.level ==> r.hero == Struck(w.hero, enemy.xp))
              && (r.hero.level > w.hero.level ==>
                    r.hero.body.hp == r.hero.body.maxHp == MaxHpFor(r.hero.body.stats.endurance))
  {
    var hero := Struck(w.hero, enemy.xp);
    if hero.body.hp < 0 then
      World(Notify(w.engine, GameOverText).(gameProcess := false), hero)
    else
      var engine := Notify(Notify(w.engine.(score := w.engine.score + 1), ExpText(enemy.xp)), HpText(enemy.xp));
      var levelled := LevelUp(hero);
      World(engine.(log := engine.log + levelled.messages), levelled.hero)
  }

  /** An ally's reward: supplied from outside, free to change engine and hero as it likes. */
  type Action = World -> World

  datatype Ally = Ally(sprite: Sprite, action: Action, position: Position)

  /** `Ally.interact`: the action runs first, then the hero levels up on whatever experience
      the action left, and the level-up notifications are appended after the action's own. */
  function AllyInteract(ally: Ally, w: World): (r: World)
    ensures var acted := ally.action(w);
            && r.engine.score == acted.engine.score
            && r.engine.gameProcess == acted.engine.gameProcess
            && r.hero.level >= acted.hero.level
            && |r.engine.log| == |acted.engine.log| + (r.hero.level - acted.hero.level)
            && r.engine.log[..|acted.engine.log|] == acted.engine.log
            && (forall i :: |acted.engine.log| <= i < |r.engine.log| ==> r.engine.log[i] == LevelUpText)
            && r.hero.exp == acted.hero.exp && r.hero.gold == acted.hero.gold
            && r.hero.body.position == acted.hero.body.position && r.hero.body.sprite == acted.hero.body.sprite
            && Settled(r.hero)
            && StopsAt(acted.hero.exp, acted.hero.level, r.hero.level)
            && r.hero.body.stats == acted.hero.body.stats.(strength := acted.hero.body.stats.strength + 2 * (r.hero.level - acted.hero.level),
                                                           endurance := acted.hero.body.stats.endurance + 2 * (r.hero.level - acted.hero.level))
            && (r.hero.level > acted.hero.level ==>
                  r.hero.body.hp == r.hero.body.maxHp == MaxHpFor(r.hero.body.stats.endurance))
            && (Settled(acted.hero) ==> r == acted)
  {
    var acted := ally.action(w);
    var levelled := LevelUp(acted.hero);
    World(acted.engine.(log := acted.engine.log + levelled.messages), levelled.hero)
  }

  /** Hit points of exactly zero are survivable: the score still goes up and both
      notifications are still sent. */
  lemma ZeroHpSurvives(enemy: Enemy, w: World)
    requires w.hero.body.hp == Damage(enemy.xp)
    ensures EnemyInteract(enemy, w).hero.exp == w.hero.exp + enemy.xp
    ensures EnemyInteract(enemy, w).engine.score == w.engine.score + 1
    ensures EnemyInteract(enemy, w).engine.gameProcess == w.engine.gameProcess
    ensures |EnemyInteract(enemy, w).engine.log| >= |w.engine.log| + 2
    ensures EnemyInteract(enemy, w).engine.log[..|w.engine.log| + 2] == w.engine.log + [ExpText(enemy.xp), HpText(enemy.xp)]
  {
  }

  /** A fight ends the game if and only if the hit leaves negative hit points. */
  lemma FatalIff(enemy: Enemy, w: World)
    requires w.engine.gameProcess
    ensures !EnemyInteract(enemy, w).engine.gameProcess <==> IsFatal(enemy, w.hero)
  {
  }

  /** The log of a survived fight names the reward: it can be read back from the first notification. */
  lemma ExpTextNamesReward(a: int, b: int)
    ensures ExpText(a) == ExpText(b) <==> a == b
  {
    if ExpText(a) == ExpText(b) {
      var ta := IntToDecimal(a);
      var tb := IntToDecimal(b);
      assert ExpText(a)[1..|ExpText(a)| - 4] == ta;
      assert ExpText(b)[1..|ExpText(b)| - 4] == tb;
      IntDecimalInjective(a, b);
    }
  }

  /** A hero at 50 hit points and no experience meets an enemy worth 10: 10 experience,
      48 hit points, one more point of score, "+10 exp" then "-2 hp", no level gained. */
  lemma SurvivedFightExample(stats: Stats, sprite: Sprite, e: Engine)
    ensures var h := NewHero(stats, sprite).(body := NewHero(stats, sprite).body.(hp := 50));
            var enemy := Enemy(NewCreature(sprite, stats, Position(2, 2)), 10);
            var r := EnemyInteract(enemy, World(e, h));
            && r.hero.exp == 10
            && r.hero.body.hp == 48
            && r.hero.level == 1
            && r.engine.score == e.score + 1
            && r.engine.gameProcess == e.gameProcess
            && r.engine.log == e.log + ["+10 exp", "-2 hp"]
  {
    var h := NewHero(stats, sprite).(body := NewHero(stats, sprite).body.(hp := 50));
    var enemy := Enemy(NewCreature(sprite, stats, Position(2, 2)), 10);
    assert Damage(10) == 2;
    assert IntToDecimal(10) == "10";
    assert IntToDecimal(2) == "2";
    assert ExpText(10) == "+10 exp";
    assert HpText(10) == "-2 hp";
    assert Threshold(1) == 100;
    var r := EnemyInteract(enemy, World(e, h));
    assert LevelUp(Struck(h, 10)).messages == [];
  }

  /** A hero at 1 hit point meets an enemy worth 50: hit points fall to -9 and the game ends
      with the score untouched. */
  lemma FatalFightExample(stats: Stats, sprite: Sprite, e: Engine)
    ensures var h := NewHero(stats, sprite).(body := NewHero(stats, sprite).body.(hp := 1));
            var enemy := Enemy(NewCreature(sprite, stats, Position(2, 2)), 50);
            var r := EnemyInteract(enemy, World(e, h));
            && r.hero.body.hp == -9
            && r.hero.exp == 50
            && r.engine == Engine(e.score, false, e.log + [GameOverText])
  {
  }
}
