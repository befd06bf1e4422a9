/**
 * The turn step of the game loop: for one key press, every held action key
 * is applied in the fixed order a, d, r, u, h, e, s, p to the player whose
 * turn it is; then both players' hp are checked for a knock-out; then the
 * turn passes to the other player. Once the game is over, key presses are
 * ignored.
 */
module BattleGame {
  import opened Wrappers
  import opened Lists
  import opened Items
  import opened Players
  import opened Combat

  datatype GameState = InGame | GameOver

  /** The position of the first item of kind `k`, if there is one. */
  function FirstOfKind(inv: seq<Item>, k: ItemKind): (r: Option<nat>)
    ensures r.Some? ==> r.value < |inv| && inv[r.value].kind == k
    ensures r.Some? ==> forall j :: 0 <= j < r.value ==> inv[j].kind != k
    ensures r.None? ==> forall j :: 0 <= j < |inv| ==> inv[j].kind != k
  {
    if inv == [] then None
    else if inv[0].kind == k then Some(0)
    else
      match FirstOfKind(inv[1..], k)
      case None => None
      case Some(i) => Some(i + 1)
  }

  /** `item.use()` followed by `inventory.remove(item)`. */
  function Consumed(st: PlayerState, item: Item): (r: PlayerState)
    requires item in st.inventory
    ensures r.stats == Effect(item.kind, st.stats)
    ensures |r.inventory| == |st.inventory| - 1
    ensures multiset(r.inventory) == multiset(st.inventory) - multiset{item}
  {
    PlayerState(Effect(item.kind, st.stats), RemoveFirst(st.inventory, item))
  }

  /** Keys e, s and p: use and remove the first item of kind `k`, if any. */
  function UsedFirst(st: PlayerState, k: ItemKind): (r: PlayerState)
    ensures NoWeaker(st.stats, r.stats)
    ensures Sound(st.stats) ==> Sound(r.stats)
    ensures |r.inventory| <= |st.inventory|
  {
    match FirstOfKind(st.inventory, k)
    case None => st
    case Some(i) => Consumed(st, st.inventory[i])
  }

  /** Key u: use the item at `pick` (the index `random.choice` gave) and remove it. */
  function UsedAt(st: PlayerState, pick: nat): (r: PlayerState)
    requires st.inventory != [] ==> pick < |st.inventory|
    ensures st.inventory == [] ==> r == st
    ensures st.inventory != [] ==>
      && r.stats == Effect(st.inventory[pick].kind, st.stats)
      && |r.inventory| == |st.inventory| - 1
      && multiset(r.inventory) == multiset(st.inventory) - multiset{st.inventory[pick]}
  {
    if st.inventory == [] then st else Consumed(st, st.inventory[pick])
  }

  /** Keys d and r: the mover's state when the u key is looked at. */
  function Prepared(st: PlayerState, keys: set<char>, drawn: Item): (r: PlayerState)
    ensures NoWeaker(st.stats, r.stats)
    ensures Sound(st.stats) ==> Sound(r.stats)
    ensures |st.inventory| <= Capacity ==> |r.inventory| <= Capacity
  {
    var s1 := if 'd' in keys then Defended(st) else st;
    if 'r' in keys then Rummaged(s1, drawn) else s1
  }

  /** `pick` is a position of the inventory the u key sees, when that is not empty. */
  predicate PickValid(st: PlayerState, keys: set<char>, drawn: Item, pick: nat) {
    var inv := Prepared(st, keys, drawn).inventory;
    inv != [] ==> pick < |inv|
  }

  /** What the held keys do to the player whose turn it is. */
  function Acted(st: PlayerState, keys: set<char>, drawn: Item, pick: nat): (r: PlayerState)
    requires PickValid(st, keys, drawn, pick)
    ensures NoWeaker(st.stats, r.stats)
    ensures Sound(st.stats) ==> Sound(r.stats)
    ensures |st.inventory| <= Capacity ==> |r.inventory| <= Capacity
  {
    var s2 := Prepared(st, keys, drawn);
    var s3 := if 'u' in keys then UsedAt(s2, pick) else s2;
    var s4 := if 'h' in keys then Healed(s3) else s3;
    UsedByKind(s4, keys)
  }

  /** Keys e, s and p: one Defense, one Strength, one Health Potion, in that order. */
  function UsedByKind(st: PlayerState, keys: set<char>): (r: PlayerState)
    ensures NoWeaker(st.stats, r.stats)
    ensures Sound(st.stats) ==> Sound(r.stats)
    ensures |r.inventory| <= |st.inventory|
  {
    var s1 := if 'e' in keys then UsedFirst(st, DefensePotion) else st;
    var s2 := if 's' in keys then UsedFirst(s1, StrengthPotion) else s1;
    if 'p' in keys then UsedFirst(s2, HealthPotion) else s2
  }

  /** The two players, the one to move first, and the game state. */
  datatype Turn = Turn(mover: PlayerState, waiting: PlayerState, state: GameState)

  /**
   * One key press: ignored once the game is over; otherwise the mover acts,
   * the game ends if either hp is at or below zero, and the players swap.
   */
  function Step(t: Turn, keys: set<char>, drawn: Item, pick: nat): (r: Turn)
    requires t.state == InGame ==> PickValid(t.mover, keys, drawn, pick)
    requires t.state == InGame && 'a' in keys ==> t.waiting.stats.defense != 0.0
    ensures t.state == GameOver ==> r == t
    ensures t.state == InGame ==>
      (r.state == GameOver <==> r.mover.stats.hp <= 0.0 || r.waiting.stats.hp <= 0.0)
    ensures t.state == InGame ==> NoWeaker(t.mover.stats, r.waiting.stats)
    ensures t.state == InGame ==> r.mover.inventory == t.waiting.inventory
    ensures t.state == InGame ==>
      r.mover.stats.strength == t.waiting.stats.strength && r.mover.stats.defense == t.waiting.stats.defense
    ensures t.state == InGame ==>
      r.mover.stats.hp == (if 'a' in keys then t.waiting.stats.hp - Damage(t.mover.stats, t.waiting.stats) else t.waiting.stats.hp)
  {
    if t.state == GameOver then t
    else
      var target := if 'a' in keys then t.waiting.(stats := Attacked(t.mover.stats, t.waiting.stats)) else t.waiting;
      var mover := Acted(t.mover, keys, drawn, pick);
      var over := mover.stats.hp <= 0.0 || target.stats.hp <= 0.0;
      Turn(target, mover, if over then GameOver else InGame)
  }

  /** An item of `p`'s inventory takes effect on `p` and its first occurrence leaves. */
  method UseAndRemove(p: Player, item: Item)
    requires p.Valid() && item in p.inventory
    modifies p`hp, p`strength, p`defense, p`inventory
    ensures p.Valid()
    ensures p.State() == Consumed(old(p.State()), item)
  {
    item.Use();
    p.inventory := RemoveFirst(p.inventory, item);
  }

  /** Key u: `random.choice` on an empty inventory raises, and the handler ignores it. */
  method UseRandomItem(p: Player, pick: nat)
    requires p.Valid()
    requires p.inventory != [] ==> pick < |p.inventory|
    modifies p`hp, p`strength, p`defense, p`inventory
    ensures p.Valid()
    ensures p.State() == UsedAt(old(p.State()), pick)
  {
    if p.inventory != [] {
      var item := p.inventory[pick];
      UseAndRemove(p, item);
    }
  }

  /** Keys e, s and p: scan the inventory for the first item of kind `k`. */
  method UseFirstOfKind(p: Player, k: ItemKind)
    requires p.Valid()
    modifies p`hp, p`strength, p`defense, p`inventory
    ensures p.Valid()
    ensures p.State() == UsedFirst(old(p.State()), k)
  {
    ghost var st := p.State();
    var i := 0;
    // scan for the first item of kind `k`, stopping at it
    while i < |p.inventory| && p.inventory[i].kind != k
      invariant 0 <= i <= |p.inventory|
      invariant forall j :: 0 <= j < i ==> p.inventory[j].kind != k
    {
      i := i + 1;
    }
    if i < |p.inventory| {
      assert FirstOfKind(st.inventory, k) == Some(i);
      var x := p.inventory[i];
      UseAndRemove(p, x);
    } else {
      assert FirstOfKind(st.inventory, k) == None;
    }
  }

  /** Keys d, r, u, h, e, s and p, in that order, all on the same player. */
  method Act(p: Player, keys: set<char>, drawn: nat, pick: nat)
    requires p.Valid()
    requires drawn < |Catalog|
    requires PickValid(p.State(), keys, p.items[drawn], pick)
    modifies p`hp, p`strength, p`defense, p`inventory
    ensures p.Valid()
    ensures p.State() == Acted(old(p.State()), keys, p.items[drawn], pick)
  {
    ghost var st := p.State();
    ghost var drawnItem := p.items[drawn];
    if 'd' in keys {
      p.Defend();
    }
    ghost var s1 := p.State();
    assert s1 == if 'd' in keys then Defended(st) else st;
    if 'r' in keys {
      p.Rummage(drawn);
    }
    ghost var s2 := p.State();
    assert s2 == Prepared(st, keys, drawnItem);
    if 'u' in keys {
      UseRandomItem(p, pick);
    }
    ghost var s3 := p.State();
    assert s3 == if 'u' in keys then UsedAt(s2, pick) else s2;
    if 'h' in keys {
      p.Heal();
    }
    ghost var s4 := p.State();
    assert s4 == if 'h' in keys then Healed(s3) else s3;
    UseByKind(p, keys);
  }

  /** Keys e, s and p, in that order, on the same player. */
  method UseByKind(p: Player, keys: set<char>)
    requires p.Valid()
    modifies p`hp, p`strength, p`defense, p`inventory
    ensures p.Valid()
    ensures p.State() == UsedByKind(old(p.State()), keys)
  {
    ghost var st := p.State();
    if 'e' in keys {
      UseFirstOfKind(p, DefensePotion);
    }
    ghost var s1 := p.State();
    assert s1 == if 'e' in keys then UsedFirst(st, DefensePotion) else st;
    if 's' in keys {
      UseFirstOfKind(p, StrengthPotion);
    }
    ghost var s2 := p.State();
    assert s2 == if 's' in keys then UsedFirst(s1, StrengthPotion) else s1;
    if 'p' in keys {
      UseFirstOfKind(p, HealthPotion);
    }
  }

  /** The state `main` keeps between key presses. */
  class Game {
    var curr: Player
    var other: Player
    var state: GameState

    /** Two distinct valid players, one of them to move. */
    ghost predicate Valid()
      reads this, curr, other
    {
      curr != other && curr.Valid() && other.Valid()
    }

    /** While the game is on, neither player is knocked out. */
    ghost predicate Live()
      reads this, curr, other
    {
      Alive(View())
    }

    function View(): (t: Turn)
      reads this, curr, other
    {
      Turn(curr.State(), other.State(), state)
    }

    /** The start of `main`: player 2 holds one extra Defense Potion, player 1 moves first. */
    constructor ()
      ensures Valid() && Live() && fresh(curr) && fresh(other) && state == InGame
      ensures curr.name == "Player 1" && other.name == "Player 2"
      ensures curr.State() == PlayerState(Base, [])
      ensures other.CurrentStats() == Base && |other.inventory| == 1
      ensures other.inventory[0].kind == DefensePotion && fresh(other.inventory[0])
      ensures other.inventory[0] !in other.items
    {
      var p1 := new Player("Player 1");
      var p2 := new Player("Player 2");
      var potion := new Item(DefensePotion, p2);
      p2.inventory := p2.inventory + [potion];
      curr, other := p1, p2;
      state := InGame;
    }

    /**
     * One KEYDOWN event with `keys` held. `drawn` is the catalog index the
     * r key's `random.choice` gives and `pick` the inventory index the u
     * key's gives. `shown` lists the names passed to the game-over screen.
     */
    method KeyDown(keys: set<char>, drawn: nat, pick: nat) returns (shown: seq<string>)
      requires Valid()
      requires drawn < |Catalog|
      requires PickValid(curr.State(), keys, curr.items[drawn], pick)
      modifies this`curr, this`other, this`state
      modifies curr`hp, curr`strength, curr`defense, curr`inventory
      modifies other`hp, other`strength, other`defense, other`inventory
      ensures Valid()
      ensures old(state) == InGame ==> curr.items == old(other.items) && other.items == old(curr.items)
      ensures View() == Step(old(View()), keys, old(curr.items[drawn]), pick)
      ensures old(state) == GameOver ==> curr == old(curr) && other == old(other) && shown == []
      ensures old(state) == GameOver ==> unchanged(curr, other)
      ensures old(state) == InGame ==> curr == old(other) && other == old(curr)
      ensures old(state) == InGame ==>
        shown == (if other.hp <= 0.0 then [curr.name] else []) + (if curr.hp <= 0.0 then [other.name] else [])
      ensures old(Live()) ==> Live()
      ensures old(Live()) && old(state) == InGame ==>
        shown == if state == GameOver then [old(curr).name] else []
    {
      shown := [];
      if state != InGame {
        return;
      }
      ghost var t := View();
      ghost var item := curr.items[drawn];
      var over;
      over, shown := Play(curr, other, keys, drawn, pick);
      if over {
        state := GameOver;
      }
      curr, other := other, curr;
      if Alive(t) {
        StepKeepsAlive(t, keys, item, pick);
      }
    }
  }

  /**
   * The in-game part of a key press: `mover` acts, then both hp are checked.
   * `over` is whether the game state becomes game over; `shown` lists the
   * winners' names passed to the game-over screen, in the order of the checks.
   */
  method Play(mover: Player, target: Player, keys: set<char>, drawn: nat, pick: nat)
    returns (over: bool, shown: seq<string>)
    requires mover != target && mover.Valid() && target.Valid()
    requires drawn < |Catalog|
    requires PickValid(mover.State(), keys, mover.items[drawn], pick)
    modifies mover`hp, mover`strength, mover`defense, mover`inventory
    modifies target`hp
    ensures mover.Valid() && target.Valid()
    ensures mover.items == old(mover.items) && target.items == old(target.items)
    ensures Step(Turn(old(mover.State()), old(target.State()), InGame), keys, old(mover.items[drawn]), pick)
      == Turn(target.State(), mover.State(), if over then GameOver else InGame)
    ensures shown == (if mover.hp <= 0.0 then [target.name] else []) + (if target.hp <= 0.0 then [mover.name] else [])
  {
    if 'a' in keys {
      Attack(mover, target);
    }
    Act(mover, keys, drawn, pick);
    over := false;
    shown := [];
    if mover.hp <= 0.0 {
      over := true;
      shown := shown + [target.name];
    }
    if target.hp <= 0.0 {
      over := true;
      shown := shown + [mover.name];
    }
  }

  /** While the game is on, neither player is knocked out. */
  predicate Alive(t: Turn) {
    t.state == InGame ==> t.mover.stats.hp > 0.0 && t.waiting.stats.hp > 0.0
  }

  /**
   * From a state where nobody is knocked out, the mover's hp does not drop
   * during its turn, so the game ends exactly when the player it attacked
   * is at or below zero hp, and nobody is knocked out if it goes on.
   */
  lemma StepKeepsAlive(t: Turn, keys: set<char>, drawn: Item, pick: nat)
    requires t.state == InGame ==> PickValid(t.mover, keys, drawn, pick)
    requires t.state == InGame && 'a' in keys ==> t.waiting.stats.defense != 0.0
    requires Alive(t)
    ensures Alive(Step(t, keys, drawn, pick))
    ensures t.state == InGame ==> Step(t, keys, drawn, pick).waiting.stats.hp >= t.mover.stats.hp
    ensures t.state == InGame ==>
      (Step(t, keys, drawn, pick).state == GameOver <==> Step(t, keys, drawn, pick).mover.stats.hp <= 0.0)
  {
  }

  /**
   * Keys e, s and p take out exactly the first item of the kind and keep the
   * others in order; with no item of the kind they change nothing.
   */
  lemma UsedFirstRemovesFirstMatch(st: PlayerState, k: ItemKind)
    ensures FirstOfKind(st.inventory, k).None? ==> UsedFirst(st, k) == st
    ensures FirstOfKind(st.inventory, k).Some? ==>
      var i := FirstOfKind(st.inventory, k).value;
      UsedFirst(st, k) == PlayerState(Effect(k, st.stats), st.inventory[..i] + st.inventory[i + 1..])
  {
  }

  /** Once the game is over, key presses change nothing. */
  lemma GameOverIsFinal(t: Turn, keys: set<char>, drawn: Item, pick: nat)
    requires t.state == GameOver
    ensures Step(t, keys, drawn, pick) == t
  {
  }

  /** An attack that takes at least the target's remaining hp ends the game. */
  lemma KnockoutEndsGame(t: Turn, keys: set<char>, drawn: Item, pick: nat)
    requires t.state == InGame && 'a' in keys
    requires PickValid(t.mover, keys, drawn, pick)
    requires t.waiting.stats.defense != 0.0
    requires t.waiting.stats.hp <= Damage(t.mover.stats, t.waiting.stats)
    ensures Step(t, keys, drawn, pick).state == GameOver
    ensures Step(t, keys, drawn, pick).mover.stats.hp <= 0.0
  {
  }

  /**
   * A new game: player 1 passes, player 2 drinks its Defense Potion (key e),
   * player 1 attacks. Player 2 is left with defense 1.3 and hp 100 - 10 / 1.3,
   * the game goes on, and it is player 2's turn again.
   */
  lemma OpeningScenario(potion: Item, drawn: Item)
    requires potion.kind == DefensePotion
    ensures
      var t0 := Turn(PlayerState(Base, []), PlayerState(Base, [potion]), InGame);
      var t1 := Step(t0, {}, drawn, 0);
      var t2 := Step(t1, {'e'}, drawn, 0);
      var t3 := Step(t2, {'a'}, drawn, 0);
      && t3.mover == PlayerState(Stats(100.0 - 10.0 / 1.3, 1.0, 1.3), [])
      && t3.waiting == PlayerState(Base, [])
      && t3.state == InGame
  {
  }

  /**
   * Two key presses in a row: if the game is still on afterwards, the turn
   * is back with the player who had it, and the other one still waits.
   * Both players keep their catalogs, so later rummages append the same
   * item objects. The second press's u-key index falls back to 0 when out
   * of range.
   */
  method TwoKeyDowns(g: Game, keys1: set<char>, drawn1: nat, pick1: nat,
                     keys2: set<char>, drawn2: nat, pick2: nat)
    requires g.Valid()
    requires drawn1 < |Catalog| && drawn2 < |Catalog|
    requires PickValid(g.curr.State(), keys1, g.curr.items[drawn1], pick1)
    modifies g, g.curr, g.other
    ensures g.Valid()
    ensures g.state == InGame ==> g.curr == old(g.curr) && g.other == old(g.other)
    ensures old(g.curr).items == old(g.curr.items) && old(g.other).items == old(g.other.items)
  {
    var shown1 := g.KeyDown(keys1, drawn1, pick1);
    var pick := if PickValid(g.curr.State(), keys2, g.curr.items[drawn2], pick2) then pick2 else 0;
    var shown2 := g.KeyDown(keys2, drawn2, pick);
  }
}
