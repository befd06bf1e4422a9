/** The one damage rule: `attack(attacker, target)`. */
module Combat {
  import opened Items
  import opened Players

  /** Hp an attack with `a`'s strength takes off a target with `t`'s defense. */
  function Damage(a: Stats, t: Stats): (d: real)
    requires t.defense != 0.0
    ensures d * t.defense == 10.0 * a.strength
    ensures a.strength > 0.0 && t.defense > 0.0 ==> d > 0.0
    ensures a.strength >= 0.0 && t.defense >= 1.0 ==> d <= 10.0 * a.strength
  {
    a.strength * 10.0 / t.defense
  }

  /** The target's stats after being attacked: hp drops by the damage, unclamped. */
  function Attacked(a: Stats, t: Stats): (r: Stats)
    requires t.defense != 0.0
    ensures r.strength == t.strength && r.defense == t.defense
    ensures r.hp == t.hp - Damage(a, t)
  {
    t.(hp := t.hp - Damage(a, t))
  }

  /**
   * The attack is asymmetric: the target's defense divides, the attacker's
   * own defense plays no part, and nothing stops hp from going below zero.
   */
  lemma AttackScenarios()
    ensures Attacked(Stats(100.0, 100.0, 1.0), Base).hp == -900.0
    ensures Attacked(Base, Stats(100.0, 1.0, 1.3)).hp == 100.0 - 100.0 / 13.0
    ensures Damage(Stats(100.0, 2.0, 1.0), Base) != Damage(Base, Stats(100.0, 2.0, 1.0))
  {
  }

  /** The target loses the attacker's strength times 10 over its own defense. */
  method Attack(attacker: Player, target: Player)
    requires target.defense != 0.0
    modifies target`hp
    ensures old(target.Valid()) ==> target.Valid()
    ensures target.State() == old(target.State()).(stats := Attacked(old(attacker.CurrentStats()), old(target.CurrentStats())))
  {
    target.hp := target.hp - attacker.strength * 10.0 / target.defense;
  }
}
