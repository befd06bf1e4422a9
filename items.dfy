/**
 * The four kinds of item (`StrengthPotion`, `DefensePotion`, `OldBoot`,
 * `HealthPotion`), what using one does to a player's stats, and the label
 * a player's description shows for it.
 */
module Items {

  datatype ItemKind = StrengthPotion | DefensePotion | OldBoot | HealthPotion

  /** A player's combat stats. Python floats; here exact rationals. */
  datatype Stats = Stats(hp: real, strength: real, defense: real)

  /** The starting stats of every player (the defaults of `Player.__init__`). */
  const Base: Stats := Stats(100.0, 1.0, 1.0)

  /** The order of the catalog every player builds and `rummage` draws from. */
  const Catalog: seq<ItemKind> := [StrengthPotion, DefensePotion, OldBoot, HealthPotion]

  /** Strength and defense never fall below their starting value 1. */
  predicate Sound(s: Stats) {
    s.strength >= 1.0 && s.defense >= 1.0
  }

  /** `b` is at least as strong as `a` on every stat. */
  predicate NoWeaker(a: Stats, b: Stats) {
    b.hp >= a.hp && b.strength >= a.strength && b.defense >= a.defense
  }

  /** What `use()` of an item of kind `k` does to its player's stats. */
  function Effect(k: ItemKind, s: Stats): (r: Stats)
    ensures NoWeaker(s, r)
    ensures r == s <==> k == OldBoot
    ensures Sound(s) ==> Sound(r)
  {
    match k
    case StrengthPotion => s.(strength := s.strength + 0.3)
    case DefensePotion => s.(defense := s.defense + 0.3)
    case OldBoot => s
    case HealthPotion => s.(hp := s.hp + 20.0)
  }

  /** The text an item of kind `k` shows: a non-empty, single line. */
  function Label(k: ItemKind): (r: string)
    ensures r != [] && '\n' !in r
  {
    match k
    case StrengthPotion => "Strength Potion (s)"
    case DefensePotion => "Defense Potion (e)"
    case OldBoot => "Old Boot"
    case HealthPotion => "Health Potion (p)"
  }

  /** Each kind changes exactly one stat by its fixed amount, or nothing at all. */
  lemma EffectIsExact(k: ItemKind, s: Stats)
    ensures k == StrengthPotion ==> Effect(k, s) == Stats(s.hp, s.strength + 0.3, s.defense)
    ensures k == DefensePotion ==> Effect(k, s) == Stats(s.hp, s.strength, s.defense + 0.3)
    ensures k == OldBoot ==> Effect(k, s) == s
    ensures k == HealthPotion ==> Effect(k, s) == Stats(s.hp + 20.0, s.strength, s.defense)
  {
  }

  /** Labels tell the kinds apart. */
  lemma LabelsAreDistinct(a: ItemKind, b: ItemKind)
    ensures Label(a) == Label(b) ==> a == b
  {
  }
}
