# Knight: creatures, levelling, combat and stat effects

A Dafny model of the entity and interaction rules of a small turn-based role-playing
game (`Objects.py`). The model is functional: every object is an immutable datatype and
every operation returns the new state.

- `Creatures` (creature.dfy): the stat block (strength, endurance, luck, intelligence),
  positions, sprite handles, and creatures whose maximum hit points are `5 + 2 * endurance`.
- `Heroes` (hero.dfy): the hero (a creature with level, experience and gold) and the
  levelling loop `level_up`, which crosses every threshold `100 * 2^(level - 1)` the
  experience pays for and sends one `"level up!"` per crossing. `LevelForExp` is an
  independent closed form (halving the experience) of where levelling ends.
- `Interactions` (interaction.dfy): the engine state interactions touch (score, the
  `game_process` continue flag, the notification log), enemy combat and the ally reward.
- `Effects` (effect.dfy): Berserk, Blessing and Weakness, which wrap a hero, own a copy of
  its stats moved by a fixed table, and read and write every other field through to the
  wrapped hero.
- `Text` (text.dfy): decimal rendering of integers for the `"+{xp} exp"` and
  `"-{damage} hp"` notifications, with a parser that reads it back.

Modelling choices:

- The engine's `notify` sink becomes an append to `Engine.log`; the score and continue flag
  are fields of the same record. Hero and engine travel together as a `World`.
- The ally's action callback is an arbitrary function `World -> World`.
- The effect wrapper is a record holding the effect's own stats and the base hero. In the
  source the base is a shared object; here a write through the effect returns an effect
  whose `base` is the updated hero, and `View` is the hero the game sees through the effect.
- Levels are a subset type `Level` (at least 1). The hero starts at 1 and levelling only
  raises it.
- `int(0.2 * xp)` is modelled as `Damage`: a fifth of `xp`, truncated toward zero, for every
  integer `xp`.
- `calc_max_HP` only recomputes the maximum; it does not refill current hit points. The
  refill is done by its callers, the creature constructor and each levelling step, and
  `CalcMaxHp` is modelled the same way.

## Model

| member | source | states |
|---|---|---|
| Creatures.CalcMaxHp | Objects.py:47-48 | maximum hit points become 5 + 2 * endurance (always odd); current hit points, stats, sprite and position are untouched |
| Creatures.NewCreature | Objects.py:40-45 | a new creature keeps its sprite, stats and position and starts at full health, hp == max_hp == 5 + 2 * endurance, for any endurance including zero or negative |
| Heroes.NewHero | Objects.py:76-81 | a new hero is at level 1 with 0 experience and 0 gold, at (1, 1), at full health, and has nothing to level |
| Heroes.Advance | Objects.py:86-90 | one crossing adds exactly 1 level, 2 strength and 2 endurance, leaves luck and intelligence alone, raises max_hp by 4 and refills hp to it |
| Heroes.LevelUp | Objects.py:83-90 | levelling stops at a level whose threshold exceeds the experience, every level passed was paid for, experience and gold are unchanged, one "level up!" per level gained, +2 strength and +2 endurance per level, hp == max_hp after any gain, and a hero below the threshold is returned unchanged with no messages |
| Heroes.Threshold | Objects.py:84 | the experience needed to leave a level is at least 100 |
| Heroes.ThresholdDoubles | Objects.py:84 | each level's threshold is exactly twice the previous one, 100 * 2^(level - 1) |
| Heroes.LevelForExp | Objects.py:84 | the reference level for an experience total: its threshold exceeds the experience and the previous level's threshold does not |
| Heroes.ThresholdMonotone | Objects.py:84 | the threshold never decreases as the level rises |
| Heroes.StopsAtUnique | Objects.py:84 | the loop condition admits only one stopping level from a given start |
| Heroes.StopsAtReference | Objects.py:84 | from any start, the larger of the start and the reference level is a valid stopping level |
| Heroes.LevelUpClosedForm | Objects.py:83-90 | levelling from any start ends at the larger of the start and the reference level for the experience |
| Heroes.LevelUpBound | Objects.py:84-86 | if any level was gained, the final level is at most experience / 100 + 1 |
| Heroes.LevelUpIdempotent | Objects.py:83-84 | levelling again right after levelling changes nothing and sends nothing |
| Heroes.LevelUpFromTwoFifty | Objects.py:83-90 | a new hero with 250 experience reaches level 3 with two "level up!" messages, +4 strength, +4 endurance and full health |
| Interactions.Damage | Objects.py:62 | the hit is a fifth of the reward truncated toward zero: for xp >= 0, 5 * d <= xp < 5 * d + 5; for xp < 0, the mirror image |
| Interactions.NewEnemy | Objects.py:56-58 | an enemy is a freshly built creature at full health carrying the given experience reward |
| Interactions.Struck | Objects.py:61-62 | the hit adds the reward to experience and takes the damage from hp, and changes nothing else |
| Interactions.EnemyInteract | Objects.py:60-72 | experience always rises by the reward; a hit that leaves hp below 0 sends only "Game over", clears the continue flag and changes nothing else; otherwise the score rises by 1, "+xp exp" and "-damage hp" are sent in that order, and levelling runs exactly as level_up does: it stops at the unique level the new experience allows, one "level up!" per level gained follows, strength and endurance rise by 2 per level, hp == max_hp == 5 + 2 * endurance after any gain, and with no gain the hero is exactly the struck hero |
| Interactions.AllyInteract | Objects.py:29-32 | after the action, levelling runs exactly as level_up does on the hero the action left: it stops at the unique level that hero's experience allows, score and continue flag are as the action left them, the action's log is kept and one "level up!" per level gained is appended, strength and endurance rise by 2 per level, hp == max_hp after any gain, and a hero with nothing to level is returned as the action left it |
| Interactions.ZeroHpSurvives | Objects.py:63-69 | a hit that leaves exactly 0 hp is not fatal: the score still rises, the continue flag is kept and "+xp exp" then "-damage hp" are sent |
| Interactions.FatalIff | Objects.py:63-66 | while the game is running, a fight stops it if and only if the hit leaves negative hp |
| Interactions.IsFatal | Objects.py:63 | a fight is fatal exactly when the struck hero's hp is negative; exactly 0 hp left is not fatal |
| Interactions.ExpText | Objects.py:68 | the first notification is "+", the reward's decimal text, then " exp" |
| Interactions.HpText | Objects.py:69 | the second notification is "-", the damage's decimal text, then " hp" |
| Interactions.ExpTextNamesReward | Objects.py:68 | the "+xp exp" notification determines the reward: two rewards give the same text only if they are equal |
| Interactions.SurvivedFightExample | Objects.py:60-72 | 50 hp, 0 experience, reward 10: 10 experience, 48 hp, level 1, score + 1, log gains "+10 exp" then "-2 hp" |
| Interactions.FatalFightExample | Objects.py:60-66 | 1 hp, reward 50: hp falls to -9, experience 50, score unchanged, continue flag false, log gains only "Game over" |
| Text.IntToDecimal | Objects.py:68-69 | an integer's text is non-empty, starts with '-' exactly when the integer is negative, and is otherwise all digits |
| Text.NatToDecimal | Objects.py:68-69 | the text of a natural number is a non-empty string of digits with no leading zero |
| Text.IntDecimalRoundTrip | Objects.py:68-69 | the interpolated integer reads back to itself |
| Text.IntDecimalInjective | Objects.py:68-69 | two integers interpolate to the same text exactly when they are equal |
| Effects.Delta | Objects.py:157-181 | every variant's table changes the stats (none is all zeros) |
| Effects.NewEffect | Objects.py:95-98 | the effect keeps the base hero as it was; its own stats are the base's plus +7/+7/+7/-3 (Berserk), +2 on all four (Blessing) or -4 on all four (Weakness), so they always differ from the base's |
| Effects.View | Objects.py:100-150 | through the effect the game sees the effect's own stats and the base's position, level, experience, gold, hp, max_hp and sprite |
| Effects.SetPosition | Objects.py:104-106 | writing the position through the effect sets the base's position, reads back the new value, and changes nothing else |
| Effects.SetLevel | Objects.py:112-114 | writing the level through the effect sets the base's level and changes nothing else |
| Effects.SetGold | Objects.py:120-122 | writing gold through the effect sets the base's gold and changes nothing else |
| Effects.SetHp | Objects.py:128-130 | writing hp through the effect sets the base's hp and changes nothing else |
| Effects.SetMaxHp | Objects.py:136-138 | writing max_hp through the effect sets the base's max_hp and changes nothing else |
| Effects.SetExp | Objects.py:144-146 | writing experience through the effect sets the base's experience and changes nothing else |
| Effects.EffectIsBasePlusDelta | Objects.py:95-98 | the effect's stats differ from the untouched base stats by exactly the variant's table |
| Effects.WritesLeaveStatsApart | Objects.py:100-146 | any sequence of writes through the effect lands on the base, never on either stat block |
| Effects.MoveThroughEffectExample | Objects.py:100-106 | a hero at (3, 4) moved to (5, 6) through an effect is at (5, 6), its stats unchanged and still different from the effect's |

## Left out

- Drawing (`draw` on allies and creatures, the display sink) and the `pygame` and `random` imports: rendering and foreign calls.
- The abstract base classes `AbstractObject` and `Interactive`: they only declare `draw` and `interact`; the datatypes and functions above stand in for them.
- Interactions.Damage: the source computes `int(0.2 * xp)` in floating point; the model uses exact truncated division by 5, which can differ from the float result only when |xp| is too large for the product to be exact.
- Levels below 1: they arise only by writing the level from outside, and the threshold `100 * 2 ** (level - 1)` would then be a float; `Level` excludes them.
- Stat blocks are Python dictionaries; keys other than the four attributes, and the `KeyError` a missing attribute would raise, are not modelled.
- The hero constructor stores the caller's dictionary itself, so later levelling also changes that dictionary as seen by the caller; value semantics do not model this sharing.
- Wrapping one effect in another, and levelling or fighting through an effect: the effect never runs the hero constructor, and levelling through it would raise the effect's private stats while refilling the base's hit points. Only a single effect over a plain hero is modelled.
- The contents of an ally's action: it is supplied from outside and is an arbitrary function here.
- The lazy, one-at-a-time delivery of level-up messages: both callers drain the generator at once, so the model returns the whole list.
