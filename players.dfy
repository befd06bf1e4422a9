/**
 * The `Player` record and the `Item` objects it carries. Every player
 * builds its own catalog of four items (one per kind) that refer back to
 * it; `rummage` appends one of those very objects to the inventory.
 */
module Players {
  import opened Items

  /** The inventory never holds more than this many items. */
  const Capacity: nat := 10

  /** An item object: its kind and the player its `use()` acts on. */
  class Item {
    const kind: ItemKind
    const player: Player

    constructor (kind: ItemKind, player: Player)
      ensures this.kind == kind && this.player == player
    {
      this.kind := kind;
      this.player := player;
    }

    /** `use()`: applies this kind's effect to `player` and to nothing else. */
    method Use()
      requires player.Valid()
      modifies player`hp, player`strength, player`defense
      ensures player.Valid()
      ensures player.CurrentStats() == Effect(kind, old(player.CurrentStats()))
    {
      match kind
      case StrengthPotion =>
        player.strength := player.strength + 0.3;
      case DefensePotion =>
        player.defense := player.defense + 0.3;
      case OldBoot =>
      case HealthPotion =>
        player.hp := player.hp + 20.0;
    }
  }

  /** What a turn changes about a player: its stats and its inventory. */
  datatype PlayerState = PlayerState(stats: Stats, inventory: seq<Item>)

  /** Specification of `defend`. */
  function Defended(st: PlayerState): (r: PlayerState)
    ensures NoWeaker(st.stats, r.stats) && r.inventory == st.inventory
    ensures Sound(st.stats) ==> Sound(r.stats)
  {
    st.(stats := st.stats.(defense := st.stats.defense + 0.1))
  }

  /** Specification of `heal`. */
  function Healed(st: PlayerState): (r: PlayerState)
    ensures NoWeaker(st.stats, r.stats) && r.inventory == st.inventory
    ensures Sound(st.stats) ==> Sound(r.stats)
  {
    st.(stats := st.stats.(hp := st.stats.hp + 5.0))
  }

  /** Specification of `rummage` once `item` has been drawn from the catalog. */
  function Rummaged(st: PlayerState, item: Item): (r: PlayerState)
    ensures r.stats == st.stats
    ensures |st.inventory| <= Capacity ==> |r.inventory| <= Capacity
    ensures |st.inventory| < Capacity ==> r.inventory == st.inventory + [item]
    ensures |st.inventory| >= Capacity ==> r.inventory == st.inventory
  {
    if |st.inventory| < Capacity then st.(inventory := st.inventory + [item]) else st
  }

  /** `n` successive calls of `heal`. */
  function HealedTimes(st: PlayerState, n: nat): (r: PlayerState) {
    if n == 0 then st else Healed(HealedTimes(st, n - 1))
  }

  /** Successive calls of `rummage` that draw the items `draws` in turn. */
  function RummagedAll(st: PlayerState, draws: seq<Item>): (r: PlayerState)
    decreases |draws|
  {
    if draws == [] then st else Rummaged(RummagedAll(st, draws[..|draws| - 1]), draws[|draws| - 1])
  }

  function Min(a: int, b: int): (m: int) {
    if a <= b then a else b
  }

  /** Healing `n` times adds exactly `5 * n` hp, with no cap, and changes nothing else. */
  lemma {:induction false} HealTimesAddsFivePerCall(st: PlayerState, n: nat)
    ensures HealedTimes(st, n).stats.hp == st.stats.hp + 5.0 * n as real
    ensures HealedTimes(st, n).stats.strength == st.stats.strength
    ensures HealedTimes(st, n).stats.defense == st.stats.defense
    ensures HealedTimes(st, n).inventory == st.inventory
  {
    if n > 0 {
      HealTimesAddsFivePerCall(st, n - 1);
    }
  }

  /**
   * However many times a player rummages, the inventory fills up to the
   * capacity and no further; the items it held before stay at the front.
   */
  lemma {:induction false} RummageNeverOverfills(st: PlayerState, draws: seq<Item>)
    requires |st.inventory| <= Capacity
    ensures |RummagedAll(st, draws).inventory| == Min(|st.inventory| + |draws|, Capacity)
    ensures RummagedAll(st, draws).inventory[..|st.inventory|] == st.inventory
    ensures RummagedAll(st, draws).stats == st.stats
    decreases |draws|
  {
    if draws != [] {
      RummageNeverOverfills(st, draws[..|draws| - 1]);
    }
  }

  /** The inventory as text: the items' labels, one per line. */
  function InventoryText(inv: seq<Item>): (r: string)
    ensures r == [] <==> inv == []
    ensures inv != [] ==> Label(inv[0].kind) <= r
    ensures |inv| == 1 ==> r == Label(inv[0].kind)
  {
    if inv == [] then ""
    else if |inv| == 1 then Label(inv[0].kind)
    else Label(inv[0].kind) + "\n" + InventoryText(inv[1..])
  }

  function NewlineCount(s: string): (n: nat) {
    if s == [] then 0 else (if s[0] == '\n' then 1 else 0) + NewlineCount(s[1..])
  }

  lemma {:induction false} NewlineCountAppend(a: string, b: string)
    ensures NewlineCount(a + b) == NewlineCount(a) + NewlineCount(b)
  {
    if a != [] {
      assert (a + b)[1..] == a[1..] + b;
      NewlineCountAppend(a[1..], b);
    } else {
      assert a + b == b;
    }
  }

  lemma {:induction false} NoNewlineNoCount(s: string)
    requires '\n' !in s
    ensures NewlineCount(s) == 0
  {
    if s != [] {
      assert s == [s[0]] + s[1..];
      NoNewlineNoCount(s[1..]);
    }
  }

  lemma LabelHasNoNewline(k: ItemKind)
    ensures NewlineCount(Label(k)) == 0
  {
    NoNewlineNoCount(Label(k));
  }

  /**
   * The text of two non-empty inventories back to back is their texts joined
   * by one line break; with the one-item case this makes line `i` the label
   * of item `i`.
   */
  lemma {:induction false} InventoryTextAppend(a: seq<Item>, b: seq<Item>)
    requires a != [] && b != []
    ensures InventoryText(a + b) == InventoryText(a) + "\n" + InventoryText(b)
  {
    assert (a + b)[0] == a[0];
    if |a| == 1 {
      assert (a + b)[1..] == b;
    } else {
      assert (a + b)[1..] == a[1..] + b;
      InventoryTextAppend(a[1..], b);
    }
  }

  /** The description lists one label per line: `n` items take `n - 1` line breaks. */
  lemma {:induction false} InventoryTextOneLinePerItem(inv: seq<Item>)
    ensures NewlineCount(InventoryText(inv)) == if inv == [] then 0 else |inv| - 1
  {
    if |inv| == 1 {
      LabelHasNoNewline(inv[0].kind);
    } else if |inv| > 1 {
      LabelHasNoNewline(inv[0].kind);
      NewlineCountAppend(Label(inv[0].kind), "\n");
      NewlineCountAppend(Label(inv[0].kind) + "\n", InventoryText(inv[1..]));
      assert NewlineCount("\n") == 1 by {
        assert "\n"[1..] == [];
      }
      InventoryTextOneLinePerItem(inv[1..]);
    }
  }

  class Player {
    const name: string
    var hp: real
    var strength: real
    var defense: real
    var inventory: seq<Item>
    /** The catalog `rummage` draws from: one item of each kind, in `Catalog` order. */
    var items: seq<Item>

    /**
     * The catalog is this player's own, every item held refers back to this
     * player, the capacity holds and strength and defense are at least 1.
     */
    ghost predicate Valid()
      reads this
    {
      && |items| == |Catalog|
      && (forall i :: 0 <= i < |items| ==> items[i].kind == Catalog[i] && items[i].player == this)
      && (forall it :: it in inventory ==> it.player == this)
      && |inventory| <= Capacity
      && Sound(CurrentStats())
    }

    /** The player's stats as a value. */
    function CurrentStats(): (s: Stats)
      reads this
    {
      Stats(hp, strength, defense)
    }

    /** The player's stats and inventory as a value. */
    function State(): (st: PlayerState)
      reads this
    {
      PlayerState(CurrentStats(), inventory)
    }

    /** A player with the default stats, an empty inventory and a fresh catalog. */
    constructor (name: string)
      ensures Valid() && this.name == name
      ensures State() == PlayerState(Base, [])
      ensures forall i :: 0 <= i < |items| ==> fresh(items[i])
    {
      this.name := name;
      inventory := [];
      hp, strength, defense := 100.0, 1.0, 1.0;
      new;
      var s := new Item(StrengthPotion, this);
      var d := new Item(DefensePotion, this);
      var b := new Item(OldBoot, this);
      var h := new Item(HealthPotion, this);
      items := [s, d, b, h];
    }

    method Defend()
      requires Valid()
      modifies this`defense
      ensures Valid()
      ensures State() == Defended(old(State()))
    {
      defense := defense + 0.1;
    }

    /** `rummage` with `drawn` the catalog index `random.choice` picked. */
    method Rummage(drawn: nat)
      requires Valid()
      requires drawn < |Catalog|
      modifies this`inventory
      ensures Valid()
      ensures State() == Rummaged(old(State()), items[drawn])
    {
      var item := items[drawn];
      if |inventory| < Capacity {
        inventory := inventory + [item];
      }
    }

    method Heal()
      requires Valid()
      modifies this`hp
      ensures Valid()
      ensures State() == Healed(old(State()))
    {
      hp := hp + 5.0;
    }
  }
}
