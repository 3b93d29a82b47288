/** Stat effects: a wrapper around a hero that owns a modified copy of the hero's stats
    and passes every other field through to the wrapped hero. */
module Effects {
  import opened Creatures
  import opened Heroes

  datatype EffectKind = Berserk | Blessing | Weakness

  /** The fixed additive table each kind applies to the copied stats. */
  function Delta(kind: EffectKind): (d: Stats)
    ensures d != Stats(0, 0, 0, 0)
  {
    match kind
    case Berserk => Stats(7, 7, 7, -3)
    case Blessing => Stats(2, 2, 2, 2)
    case Weakness => Stats(-4, -4, -4, -4)
  }

  /** `stats` is the effect's own block; `base` is the wrapped hero, which holds everything
      else. A write through the effect is a write to `base`. */
  datatype Effect = Effect(kind: EffectKind, stats: Stats, base: Hero)

  /** `Effect.__init__` followed by the variant's `apply_effect`: copy the base's stats, then
      add the variant's table to the copy. The base is kept as it is. */
  function NewEffect(kind: EffectKind, base: Hero): (e: Effect)
    ensures e.base == base
    ensures e.kind == kind
    ensures kind == Berserk ==> e.stats == Stats(base.body.stats.strength + 7, base.body.stats.endurance + 7,
                                                 base.body.stats.luck + 7, base.body.stats.intelligence - 3)
    ensures kind == Blessing ==> e.stats == Stats(base.body.stats.strength + 2, base.body.stats.endurance + 2,
                                                  base.body.stats.luck + 2, base.body.stats.intelligence + 2)
    ensures kind == Weakness ==> e.stats == Stats(base.body.stats.strength - 4, base.body.stats.endurance - 4,
                                                  base.body.stats.luck - 4, base.body.stats.intelligence - 4)
    ensures e.stats != base.body.stats
  {
    Effect(kind, base.body.stats.Plus(Delta(kind)), base)
  }

  /** The hero the game sees when it is handed the effect: the effect's own stats, every
      other field read through from the base. */
  function View(e: Effect): (h: Hero)
    ensures h.body.stats == e.stats
    ensures h.level == e.base.level && h.exp == e.base.exp && h.gold == e.base.gold
    ensures h.body.position == e.base.body.position && h.body.sprite == e.base.body.sprite
    ensures h.body.hp == e.base.body.hp && h.body.maxHp == e.base.body.maxHp
  {
    e.base.(body := e.base.body.(stats := e.stats))
  }

  // Writes through the effect. Each one changes exactly one field of the base hero.

  function SetPosition(e: Effect, p: Position): (r: Effect)
    ensures View(r).body.position == p && r.base.body.position == p
    ensures View(r) == View(e).(body := View(e).body.(position := p))
    ensures r.base == e.base.(body := e.base.body.(position := p))
    ensures r.stats == e.stats && r.kind == e.kind
  {
    e.(base := e.base.(body := e.base.body.(position := p)))
  }

  function SetLevel(e: Effect, l: Level): (r: Effect)
    ensures View(r).level == l && r.base.level == l
    ensures View(r) == View(e).(level := l)
    ensures r.base == e.base.(level := l)
    ensures r.stats == e.stats && r.kind == e.kind
  {
    e.(base := e.base.(level := l))
  }

  function SetGold(e: Effect, g: int): (r: Effect)
    ensures View(r).gold == g && r.base.gold == g
    ensures View(r) == View(e).(gold := g)
    ensures r.base == e.base.(gold := g)
    ensures r.stats == e.stats && r.kind == e.kind
  {
    e.(base := e.base.(gold := g))
  }

  function SetHp(e: Effect, hp: int): (r: Effect)
    ensures View(r).body.hp == hp && r.base.body.hp == hp
    ensures View(r) == View(e).(body := View(e).body.(hp := hp))
    ensures r.base == e.base.(body := e.base.body.(hp := hp))
    ensures r.stats == e.stats && r.kind == e.kind
  {
    e.(base := e.base.(body := e.base.body.(hp := hp)))
  }

  function SetMaxHp(e: Effect, m: int): (r: Effect)
    ensures View(r).body.maxHp == m && r.base.body.maxHp == m
    ensures View(r) == View(e).(body := View(e).body.(maxHp := m))
    ensures r.base == e.base.(body := e.base.body.(maxHp := m))
    ensures r.stats == e.stats && r.kind == e.kind
  {
    e.(base := e.base.(body := e.base.body.(maxHp := m)))
  }

  function SetExp(e: Effect, x: int): (r: Effect)
    ensures View(r).exp == x && r.base.exp == x
    ensures View(r) == View(e).(exp := x)
    ensures r.base == e.base.(exp := x)
    ensures r.stats == e.stats && r.kind == e.kind
  {
    e.(base := e.base.(exp := x))
  }

  /** Per attribute, the effect's stats minus the base's stats is the variant's table, and
      building the effect leaves the base's stats as they were. */
  lemma EffectIsBasePlusDelta(kind: EffectKind, base: Hero)
    ensures var e := NewEffect(kind, base);
            && e.base.body.stats == base.body.stats
            && e.stats.strength - e.base.body.stats.strength == Delta(kind).strength
            && e.stats.endurance - e.base.body.stats.endurance == Delta(kind).endurance
            && e.stats.luck - e.base.body.stats.luck == Delta(kind).luck
            && e.stats.intelligence - e.base.body.stats.intelligence == Delta(kind).intelligence
  {
  }

  /** Stats are private to the effect: no write through the effect reaches the base's stats,
      and the effect's view differs from the base only in its stats. */
  lemma WritesLeaveStatsApart(e: Effect, p: Position, l: Level, g: int, hp: int, m: int, x: int)
    ensures var r := SetExp(SetMaxHp(SetHp(SetGold(SetLevel(SetPosition(e, p), l), g), hp), m), x);
            && r.stats == e.stats
            && r.base.body.stats == e.base.body.stats
            && r.base == e.base.(level := l, gold := g, exp := x,
                                 body := e.base.body.(position := p, hp := hp, maxHp := m))
            && View(r) == r.base.(body := r.base.body.(stats := e.stats))
  {
  }

  /** The hero at (3, 4) wrapped in an effect and moved to (5, 6) through it is at (5, 6),
      while the effect's stats still differ from the hero's by the variant's table. */
  lemma MoveThroughEffectExample(kind: EffectKind, base: Hero)
    requires base.body.position == Position(3, 4)
    ensures var e := SetPosition(NewEffect(kind, base), Position(5, 6));
            && e.base.body.position == Position(5, 6)
            && e.base.body.stats == base.body.stats
            && e.stats == base.body.stats.Plus(Delta(kind))
            && e.stats != e.base.body.stats
  {
  }
}
