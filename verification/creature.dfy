/** Creatures: a sprite, a stat block, a position and hit points derived from endurance. */
module Creatures {

  /** The four named attributes of a stat block. Values may be zero or negative. */
  datatype Stats = Stats(strength: int, endurance: int, luck: int, intelligence: int)
  {
    /** Attribute-wise sum, used to apply an additive table to a stat block. */
    function Plus(d: Stats): Stats {
      Stats(strength + d.strength, endurance + d.endurance, luck + d.luck, intelligence + d.intelligence)
    }
  }

  /** A map coordinate. */
  datatype Position = Position(x: int, y: int)

  /** An opaque handle on an image; the core only passes it on for drawing. */
  datatype Sprite = Sprite(id: nat)

  datatype Creature = Creature(sprite: Sprite, stats: Stats, position: Position, maxHp: int, hp: int)

  /** Maximum hit points a creature of the given endurance has. */
  function MaxHpFor(endurance: int): int {
    5 + 2 * endurance
  }

  /** `calc_max_HP`: recomputes the maximum from the current endurance and touches nothing else;
      in particular current hit points are not refilled here (the callers do that). */
  function CalcMaxHp(c: Creature): (r: Creature)
    ensures r.maxHp == MaxHpFor(c.stats.endurance)
    ensures r.maxHp % 2 == 1
    ensures r.hp == c.hp
    ensures r.sprite == c.sprite && r.stats == c.stats && r.position == c.position
  {
    c.(maxHp := MaxHpFor(c.stats.endurance))
  }

  /** The constructor: stores its arguments, computes the maximum and starts at full health. */
  function NewCreature(sprite: Sprite, stats: Stats, position: Position): (c: Creature)
    ensures c.sprite == sprite && c.stats == stats && c.position == position
    ensures c.maxHp == MaxHpFor(stats.endurance)
    ensures c.hp == c.maxHp
  {
    var partial := CalcMaxHp(Creature(sprite, stats, position, 0, 0));
    partial.(hp := partial.maxHp)
  }
}
