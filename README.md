# BattleGame combat engine in Dafny

A model of the turn-based combat engine of `battlegame.py`, a two-player,
same-keyboard fighting demo. Without the graphics, the engine consists of:

- four item kinds (Strength Potion, Defense Potion, Old Boot, Health Potion):
  what using each one does and the label it shows;
- the `Player` record: hp, strength, defense, an inventory of item objects,
  and the operations `defend`, `heal` and `rummage`;
- the damage rule `attack(attacker, target)`;
- the key-press step of the main loop. Every held action key is applied to
  the player whose turn it is, in the fixed order a, d, r, u, h, e, s, p.
  Then both hp values are checked for a knock-out, and the turn passes to
  the other player.

Modules, one per component:

- `Items` (`items.dfy`): `ItemKind`, the `Stats` record, the item
  effects and labels.
- `Players` (`players.dfy`): two classes, `Item` and `Player`. An item holds
  a `kind` and a back-reference `player`. A player has fields `hp`,
  `strength`, `defense`, `inventory` and `items` (its own four-item
  catalog). The module also has the value-level specifications `Defended`,
  `Healed` and `Rummaged`.
- `Lists` (`lists.dfy`): Python's `list.index` and `list.remove`.
- `Combat` (`combat.dfy`): `Damage`, `Attacked` and the `Attack` method.
- `BattleGame` (`battlegame.dfy`): the key-press step. It has the
  value-level specification `Step` over a `Turn` (mover, waiting player,
  game state) and the `Game` class, whose `KeyDown` method is proved to
  follow it.
- `Wrappers` (`wrappers.dfy`): `Option`.

Items are objects, as in the source. `list.remove(x)` removes the first
element that *is* `x`. Rummaging appends the player's own catalog objects,
so the same object can appear in an inventory more than once. Player 2's
starting potion is a different object from its catalog Defense Potion.
`Player.Valid` states the back-reference invariant: every item in an
inventory refers to the player holding it. That is why applying an item's
effect to `item.player` changes the holder's stats.

Randomness becomes parameters:

- `drawn < 4` is the catalog index that `rummage`'s `random.choice` returns.
- `pick` is the inventory index that the u key's `random.choice` returns.
  It must be in range whenever the inventory it draws from is not empty.

Stats are `real`, so the 0.1, 0.3, 5 and 20 increments and the division are
exact rationals, not floats.

The game-over screen's caller is modelled by the names `KeyDown` returns in
`shown`: one name for each call to the screen, in order.

Two behaviours of the code to note:

- The turn passes after every key press while the game is on, including
  the press that ends the game (battlegame.py:234).
- The two knock-out checks are independent `if`s, not an `if`/`else`
  (battlegame.py:227-232). So a double knock-out would show both names,
  not one.

`StepKeepsAlive` proves that a double knock-out cannot happen. From a state
where both players have hp above 0, the mover's hp never drops during its
own turn. So only the waiting player can be knocked out, and `shown` is
either empty or the mover's name alone.

## Model

| member | source | states |
|---|---|---|
| `Lists.IndexOf` | battlegame.py:203 | the position `list.remove` finds: it holds `x`, and no earlier position does |
| `Lists.RemoveFirst` | battlegame.py:203 | `list.remove(x)` drops exactly the first occurrence of `x`: length one less, multiset minus `{x}`, elements before it unchanged, elements after it shifted down by one, nothing new appears |
| `Items.Effect` | battlegame.py:50-79 | using an item never lowers a stat; the result equals the input exactly when the kind is Old Boot; strength and defense stay at least 1 |
| `Items.Label` | battlegame.py:54-79 | the text each kind shows (`__str__`), never empty and on one line; `LabelsAreDistinct` proves the four are pairwise different |
| `Items.EffectIsExact` | battlegame.py:50-79 | Strength Potion +0.3 strength, Defense Potion +0.3 defense, Old Boot nothing, Health Potion +20 hp; no other stat changes |
| `Items.LabelsAreDistinct` | battlegame.py:54-79 | the four labels are pairwise different |
| `Players.Item.constructor` | battlegame.py:40-41 | an item records its kind and the player it acts on |
| `Players.Item.Use` | battlegame.py:50-79 | `use()` changes the referenced player's stats by `Effect` of its kind and touches no inventory; the player stays valid |
| `Players.Player.constructor` | battlegame.py:13-21 | a new player has hp 100, strength 1, defense 1, an empty inventory, and a fresh catalog of one Strength Potion, Defense Potion, Old Boot and Health Potion, each referring back to it |
| `Players.Defended` | battlegame.py:23-24 | defend never lowers a stat, keeps strength and defense at least 1, and leaves the inventory alone |
| `Players.Player.Defend` | battlegame.py:23-24 | writes only `defense`; the new state is `Defended` of the old one, i.e. defense + 0.1 |
| `Players.Healed` | battlegame.py:31-32 | heal never lowers a stat and leaves the inventory alone |
| `Players.Player.Heal` | battlegame.py:31-32 | writes only `hp`; the new state is `Healed` of the old one, i.e. hp + 5 with no cap |
| `Players.HealTimesAddsFivePerCall` | battlegame.py:31-32 | `n` heals add exactly `5 * n` hp and change nothing else |
| `Players.Rummaged` | battlegame.py:26-29 | stats unchanged; below capacity 10 the drawn item is appended at the end; at capacity the inventory is unchanged; an inventory within capacity stays within it |
| `Players.Player.Rummage` | battlegame.py:26-29 | writes only `inventory`; appends catalog item `drawn` exactly as `Rummaged` says |
| `Players.RummageNeverOverfills` | battlegame.py:26-29 | any number of rummages leaves min(old length + draws, 10) items, with the earlier items still at the front and the stats unchanged |
| `Players.InventoryText` | battlegame.py:35 | the inventory's item labels joined by line breaks: empty exactly when the inventory is, the item's label alone for one item, and starting with the first item's label; `InventoryTextAppend` and `InventoryTextOneLinePerItem` state the rest |
| `Players.InventoryTextAppend` | battlegame.py:35 | the text of two non-empty inventories back to back is the first's text, one line break, then the second's; with the one-item case this fixes line `i` as the label of item `i` |
| `Players.InventoryTextOneLinePerItem` | battlegame.py:35 | the inventory text joins one label per line: `n` items give `n - 1` line breaks, and an empty inventory gives the empty text |
| `Combat.Damage` | battlegame.py:93-94 | damage times the target's defense equals 10 times the attacker's strength; it is positive when both are positive and at most 10 times the strength when defense is at least 1 |
| `Combat.Attacked` | battlegame.py:93-94 | the target loses exactly `Damage` hp, with no clamping; its strength and defense do not change |
| `Combat.AttackScenarios` | battlegame.py:93-94 | strength 100 against defense 1 takes 100 hp down to -900; strength 1 against defense 1.3 leaves 100 - 100/13; the rule is not symmetric |
| `Combat.Attack` | battlegame.py:93-94 | writes only the target's `hp`, as `Attacked` of the old stats; the attacker's other fields are untouched |
| `BattleGame.Consumed` | battlegame.py:202-203 | `item.use()` then `inventory.remove(item)`: the stats take the item's effect, the inventory is one shorter, and exactly one copy of that item object leaves it (as a multiset) |
| `BattleGame.UseAndRemove` | battlegame.py:202-203 | on a valid player holding `item`, the state changes exactly as `Consumed` says and the player stays valid |
| `BattleGame.FirstOfKind` | battlegame.py:209-213 | the scan's result is an index holding the kind with none before it, or none when no item of the kind exists |
| `BattleGame.UsedFirst` | battlegame.py:208-225 | using an item of a kind never lowers a stat, keeps strength and defense at least 1, and never lengthens the inventory |
| `BattleGame.UsedFirstRemovesFirstMatch` | battlegame.py:209-213 | with no item of the kind, nothing changes; otherwise exactly the first such item is removed, the rest keep their order, and its effect is applied |
| `BattleGame.UseFirstOfKind` | battlegame.py:208-225 | the scan for the first item of the kind (the `for … break` loop) changes the player's state exactly as `UsedFirst` says and keeps it valid |
| `BattleGame.UsedAt` | battlegame.py:199-205 | on an empty inventory the u key does nothing; otherwise the chosen item's effect is applied and exactly one copy of that object leaves the inventory: length minus 1, multiset minus that item |
| `BattleGame.UseRandomItem` | battlegame.py:199-205 | the u key on a player, including the swallowed error on an empty inventory, changes its state exactly as `UsedAt` says |
| `BattleGame.Prepared` | battlegame.py:195-198 | keys d and r never lower a stat and keep the inventory within capacity |
| `BattleGame.UsedByKind` | battlegame.py:208-225 | keys e, s and p never lower a stat and never lengthen the inventory |
| `BattleGame.UseByKind` | battlegame.py:208-225 | keys e, s, p applied in that order change the player exactly as `UsedByKind` says |
| `BattleGame.Acted` | battlegame.py:195-225 | the mover's own keys never lower any of its stats, keep strength and defense at least 1, and keep the inventory within capacity |
| `BattleGame.Act` | battlegame.py:195-225 | keys d, r, u, h, e, s, p applied in that order to one player change it exactly as `Acted` says |
| `BattleGame.Step` | battlegame.py:191-234 | the value-level key press: after game over it is the identity; otherwise the attacked player loses `Damage` hp (only with key a) and keeps its strength, defense and inventory, the mover's stats never drop, the game ends exactly when either hp is at or below 0, and the two swap roles; `StepKeepsAlive`, `GameOverIsFinal` and `KnockoutEndsGame` state its consequences |
| `BattleGame.Play` | battlegame.py:193-232 | writes only the mover's hp, stats and inventory and the target's hp, so both catalogs stay; attack first (with the mover's stats before its own actions), then the mover's keys; `over` and the resulting turn are `Step`'s; `shown` lists the other player's name if the mover is out, then the mover's name if the target is out |
| `BattleGame.Game.constructor` | battlegame.py:100-153 | both players start at hp 100, strength 1, defense 1; player 2 holds one fresh Defense Potion, a different object from its catalog Defense Potion; player 1 moves; the game is on and nobody is knocked out |
| `BattleGame.Game.KeyDown` | battlegame.py:189-235 | after a key press the game's state is `Step` of the old state; once the game is over, nothing changes; otherwise the players always swap; only the players' hp, stats and inventories and the game's own fields are written, so each player keeps its catalog objects; `Live` is preserved; from a live state `shown` is the mover's name exactly when the game ends |
| `BattleGame.StepKeepsAlive` | battlegame.py:227-234 | from a state where nobody is out, the mover's hp does not drop; the game ends exactly when the attacked player is at or below 0 hp; if it goes on, nobody is out |
| `BattleGame.GameOverIsFinal` | battlegame.py:191 | once the game is over, a key press changes nothing |
| `BattleGame.KnockoutEndsGame` | battlegame.py:193-232 | an attack whose damage reaches the target's hp ends the game, with the target at or below 0 hp |
| `BattleGame.OpeningScenario` | battlegame.py:191-234 | from a new game: player 1 passes, player 2 uses its Defense Potion, player 1 attacks. Player 2 then has defense 1.3, hp 100 - 10/1.3 and an empty inventory, and the game goes on with player 2 to move |
| `BattleGame.TwoKeyDowns` | battlegame.py:234 | after two key presses with the game still on, the turn is back with the same player; both players still hold the catalog objects they started with |

## Left out

- Rendering and input: sprite loading, window, clock, fonts, `blit_text`,
  `draw_game_over_screen` and screen drawing (lines 14, 103-146, 155-185).
  These are graphics-library calls. The names passed to the game-over
  screen are returned as `shown`.
- Event polling (`pygame.event.wait`, `key.get_pressed`, lines 187-192).
  The held keys are a `set<char>` parameter. Only KEYDOWN events are
  modelled. The QUIT event only ends the loop, and other events change no
  state.
- Restart and quit from the game-over screen (lines 167-174). These are
  process control. A restart amounts to the `Game` constructor.
- `random.choice` (lines 27, 201). It is replaced by the index parameters
  `drawn` and `pick`; no distribution is modelled.
- The numbers in `Player.__str__` (line 36). Python float printing cannot be
  reproduced with `real`, so only the inventory's label text is modelled.
- The `Player` constructor's optional `sprite`, `inventory`, `hp`,
  `strength` and `defense` arguments. The game always uses the defaults.
- The `BattleGame` class and `self.bg` (lines 6-9, 19), and the
  commented-out `Player1`/`Player2` block (lines 82-90). These are dead code.
- The abstract `Item.use`/`__str__` that raise `NotImplementedError`
  (lines 43-47). The kinds are a closed datatype, so they cannot be reached.
- The local variables `player1`/`player2` of `main`. Outside rendering, the
  step only uses `curr_player` and `other_player`, which the `Game` keeps.
  The players' names tell them apart.
- Float rounding. Stats are exact rationals.
