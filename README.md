# Dungeon rule engine, modelled in Dafny

This project models the rule core of a turn-based grid dungeon game written in Java
(package `unsw.dungeon`):

- **loading**: `DungeonLoader` reads a level description. It builds one entity per record,
  announces each to the load hooks through a `LoaderComposite`, then announces `postLoad`.
- **wiring**: `GameHooks` registers each listening entity's handler on the player's
  `moveIntent` or `moveEvent` list.
- **entities**: the entities whose rules are part of the core:
  - the base `Entity` position cells;
  - the legacy enemy (`entity/Enemy.java`), which roams toward the player, flees from a
    player with a potion, and fights a player who steps onto it;
  - the state-pattern enemy (`entity/enemy/Enemy.java`);
  - `RoamBehaviour` (`entity/enemy/RoamBehaviour.java`), which drives a legacy enemy
    toward the player;
  - the `Boulder`, which the player pushes and which crushes an enemy in its way;
  - the `Key`, a usable item with a use counter;
  - the `Exit`.
- **goals**: a `Goal` asks its strategy, and `GoalStrategyExit` is met when some exit is
  activated.

Each Java class whose fields change is a Dafny `class` whose methods state their new state
in terms of specification functions. Those functions are proved to have the properties the
game promises:

- an enemy's roam never takes it further from the player;
- fleeing is roaming reversed;
- a push crushes only an enemy;
- a key is used up only on success;
- hooks are told in order;
- a skipped record costs only itself.

Collaborators whose code is not part of this model are inputs. They are grouped in
`Collaborators.Surroundings`:

- the answer of an entity's `moveIntent` emitter;
- `isPositionBlocked`;
- `Dungeon.positionIsValid`.

The `Player` is a small class holding only what the modelled code reads or writes. Its
`kill()` is taken to clear an alive flag.

Module layout:

| file | module | models |
|---|---|---|
| `option.dfy` | `Optional` | `Option` |
| `events.dfy` | `Events` | `LocationChanged`, `ItemUsed` |
| `meta.dfy` | `Meta` | entity levels, the kinds the loader builds, `Spawned`, the targets of `Usable.use` |
| `entity.dfy` | `EntityPosition` | `entity/Entity.java` |
| `key.dfy` | `Keys` | `entity/Key.java` |
| `collaborators.dfy` | `Collaborators` | the player, the inventory, the environment's answers |
| `movement.dfy` | `Movement` | the movement rules as values: `setXY`, `move`, and the roam and flee step orders |
| `enemy.dfy` | `Enemies` | `entity/Enemy.java` |
| `boulder.dfy` | `Boulders` | `entity/Boulder.java` |
| `exit.dfy` | `Exits` | `entity/Exit.java` |
| `enemy_state.dfy` | `EnemyStates` | `entity/enemy/Enemy.java` |
| `roam_behaviour.dfy` | `RoamBehaviours` | `entity/enemy/RoamBehaviour.java` |
| `game_hooks.dfy` | `GameHooks` | `GameHooks.java` |
| `dungeon.dfy` | `Dungeons` | the state of `Dungeon` that the loader and goals use |
| `loader.dfy` | `Loader` | `DungeonLoader.java`, `LoaderComposite` |
| `goals.dfy` | `Goals` | `goals/Goal.java`, `goals/GoalStrategyExit.java` |

### Where the source is inconsistent, and what the model does

The Java files do not all agree with each other. The model follows the evident intent:

- `GoalStrategyExit` calls `Exit.getActivated()`, which `Exit.java` does not declare. The
  model gives an exit an activation flag: the `activated` slot of its entity, unset meaning
  not activated. The loader never sets it, because only portals read `"activated"`.
  `Goals.FreshlyLoadedExitsAreInactive` proves the consequence: the exit goal of a freshly
  loaded dungeon is not met.
- `DungeonLoader.load` calls `new GameHooks(dungeon)`, but `GameHooks` declares no
  constructor. It also has no `onLoad` for `Enemy` or `Saw`, although `LoaderComposite`
  calls them on every hook. The model's GameHooks registers nothing for those kinds.
- `GameHooks` registers `boulder::boulderMoveIntentHandler`, but `Boulder` declares
  `playerMoveIntentHandler`. The model takes them to be the same handler.
- `Key.java` is damaged: the constructor and `getUses` are not closed. The model reads
  each method as the lines under its own header (see Findings).
- The state-pattern enemy's `State` classes (`roamState`, `fleeState`) are not part of this
  model, and nothing in the modelled files calls `setState`. `roam`, `flee` and the
  move-event handler all call `state.move(player)`. The model records each such dispatch,
  with the state it went to.

## Model

| member | source | states |
|---|---|---|
| Meta.AnswerToItem | src/unsw/dungeon/entity/Enemy.java:161-180 | An enemy, a boulder or an exit answers false when interacted with by an item; any other target gives its own answer. |
| EntityPosition.Entity.constructor | src/unsw/dungeon/entity/Entity.java:26-29 | A new entity sits at the given cell and no level is set. |
| EntityPosition.Entity.SetX | src/unsw/dungeon/entity/Entity.java:31-33 | Writing through the x property changes x only. |
| EntityPosition.Entity.SetY | src/unsw/dungeon/entity/Entity.java:35-37 | Writing through the y property changes y only. |
| EntityPosition.Entity.GetX | src/unsw/dungeon/entity/Entity.java:43-45 | getX reads the x cell. |
| EntityPosition.Entity.GetY | src/unsw/dungeon/entity/Entity.java:39-41 | getY reads the y cell. |
| EntityPosition.Entity.GetEntityLevel | src/unsw/dungeon/entity/Entity.java:47-49 | getEntityLevel reads the level field. |
| EntityPosition.NewEntityHasNoLevel | src/unsw/dungeon/entity/Entity.java:18-29 | An entity built by this constructor reports no level and the cell it was built at. |
| Keys.GetUsesAsWritten | src/unsw/dungeon/entity/Key.java:36-38 | getUses as written reports no uses left, whatever the counter holds. |
| Keys.UseAsWrittenNeverSucceeds | src/unsw/dungeon/entity/Key.java:23-38 | With getUses as written, use always answers false, never decrements and never emits, for every counter and target. |
| Keys.UseAsWrittenRefusesUsableKey | src/unsw/dungeon/entity/Key.java:23-38 | Counterexample: a key with one use on an accepting target is used up when the counter is reported, but refused as written. |
| Keys.UseDecrementsOnlyOnSuccess | src/unsw/dungeon/entity/Key.java:23-34 | A use succeeds iff a use is left and the target accepts. Only then does the counter drop by exactly one, with exactly one ItemUsed(old, old - 1). On failure nothing changes. |
| Keys.Key.constructor | src/unsw/dungeon/entity/Key.java:12-14 | A new key has id -1, the initial counter and no notifications. |
| Keys.Key.SetID | src/unsw/dungeon/entity/Key.java:15-17 | setID changes the id only. |
| Keys.Key.GetID | src/unsw/dungeon/entity/Key.java:19-21 | getID reads the id. |
| Keys.Key.GetUses | src/unsw/dungeon/entity/Key.java:36-38 | Corrected getUses: reports the counter. |
| Keys.Key.MaxOne | src/unsw/dungeon/entity/Key.java:39-42 | maxOne is always true. |
| Keys.Key.Use | src/unsw/dungeon/entity/Key.java:23-34 | The answer, the new counter and the notifications appended are exactly those of UseEffect. ok holds iff the key would succeed. A refused use changes nothing. The id never changes. |
| Collaborators.KeysNeverDefendAgainstEnemies | src/unsw/dungeon/entity/Enemy.java:166-174 | An inventory defends a player against an enemy iff it holds a usable non-key item that succeeds. A key never does, because an enemy refuses items. |
| Movement.SetXY | src/unsw/dungeon/entity/Enemy.java:68-84 | An invalid target is ignored and changes nothing. A valid one is moved to, with one (old, new) event appended. So setXY never leaves a valid position for an invalid one. |
| Movement.Toward | src/unsw/dungeon/entity/Enemy.java:115-136 | The roam plan has one step per nonzero axis of the displacement to the player. Every step approaches the player, and the horizontal step comes first. |
| Movement.AwayReversesToward | src/unsw/dungeon/entity/Enemy.java:138-159 | The flee plan is the roam plan with every direction reversed. It is the roam plan for the opposite displacement. |
| Movement.AttemptTakesFirstSuccess | src/unsw/dungeon/entity/Enemy.java:118-133 | Trying the plan's steps in order either moves by the first step that succeeds (every earlier one failed) or, when none succeeds, leaves the enemy where it was. |
| Movement.RoamNeverRecedes | src/unsw/dungeon/entity/Enemy.java:115-136 | A roam never increases the Manhattan distance to the player. A roam that changes cell reduces it by exactly one. On the player's cell the enemy stays. |
| Movement.FleeNeverApproaches | src/unsw/dungeon/entity/Enemy.java:138-159 | A flee never decreases the distance to the player. A flee that changes cell increases it by exactly one. |
| Movement.IntentVerdict | src/unsw/dungeon/entity/Enemy.java:37-43 | An intent is not objected to unless the player steps onto this entity's cell. Then the verdict is the player's interact answer. |
| Enemies.Enemy.constructor | src/unsw/dungeon/entity/Enemy.java:25-45 | A new enemy is alive at its cell and has emitted nothing. |
| Enemies.Enemy.Level | src/unsw/dungeon/entity/Enemy.java:26 | An enemy occupies the OBJECT level. |
| Enemies.Enemy.SetXY | src/unsw/dungeon/entity/Enemy.java:68-84 | The new position and events are Movement.SetXY of the old ones. An invalid target changes nothing; a valid one moves there and emits one event. |
| Enemies.Enemy.Move | src/unsw/dungeon/entity/Enemy.java:47-66 | Answer and new state are Movement.Step of the old state. An objection or a blocked target refuses with nothing changed. |
| Enemies.Enemy.MoveUp | src/unsw/dungeon/entity/Enemy.java:86-88 | A unit step with y - 1. |
| Enemies.Enemy.MoveDown | src/unsw/dungeon/entity/Enemy.java:90-92 | A unit step with y + 1. |
| Enemies.Enemy.MoveLeft | src/unsw/dungeon/entity/Enemy.java:94-96 | A unit step with x - 1. |
| Enemies.Enemy.MoveRight | src/unsw/dungeon/entity/Enemy.java:98-100 | A unit step with x + 1. |
| Enemies.Enemy.Kill | src/unsw/dungeon/entity/Enemy.java:110-113 | kill clears the alive flag. |
| Enemies.Enemy.Roam | src/unsw/dungeon/entity/Enemy.java:115-136 | The enemy ends where the first successful step of the roam plan for the displacement to the player leads. The answer is always true. |
| Enemies.Enemy.Flee | src/unsw/dungeon/entity/Enemy.java:138-159 | As Roam, with the flee plan. |
| Enemies.Enemy.Interact | src/unsw/dungeon/entity/Enemy.java:161-180 | A non-player is refused. For a player, the answer is whether some inventory entry's use on this enemy succeeds. The player dies iff none does. The player's position, inventory, listener lists and keys are untouched. |
| Enemies.Enemy.PlayerMoveEventHandler | src/unsw/dungeon/entity/Enemy.java:29-35 | With a usable potion the enemy flees, otherwise it roams. |
| Enemies.Enemy.PlayerMoveIntentHandler | src/unsw/dungeon/entity/Enemy.java:37-43 | No objection unless the player steps onto the enemy; then the player's interact answer. |
| Boulders.PushAgreesWithStep | src/unsw/dungeon/entity/Boulder.java:24-52 | Onto a free cell, a push moves like an enemy's move. Onto a blocked cell holding an enemy, it crushes that enemy and moves on. Onto a cell blocked by anything else, it is refused with nothing changed. |
| Boulders.Boulder.constructor | src/unsw/dungeon/entity/Boulder.java:12-14 | A new boulder sits at its cell and has emitted nothing. |
| Boulders.Boulder.Level | src/unsw/dungeon/entity/Boulder.java:13 | A boulder occupies the OBJECT level. |
| Boulders.Boulder.SetXY | src/unsw/dungeon/entity/Boulder.java:50 | The position write behaves like Movement.SetXY. |
| Boulders.Boulder.Move | src/unsw/dungeon/entity/Boulder.java:24-52 | Answer and new state are PushOutcome's. A crushed enemy is dead and has not moved. An enemy that is not crushed is untouched, and a refused push touches no enemy. |
| Boulders.Boulder.Interact | src/unsw/dungeon/entity/Boulder.java:57-64 | A non-player is refused without movement. A player pushes the boulder by the offset from the player to the boulder, with Move's guarantees: a crushed enemy is dead and has not moved, an enemy that is not crushed is untouched, and a refused push touches no enemy. |
| Boulders.Boulder.PlayerMoveIntentHandler | src/unsw/dungeon/entity/Boulder.java:66-71 | No objection unless the player steps onto the boulder; then the player's interact answer. |
| Exits.Exit.Level | src/unsw/dungeon/entity/Exit.java:10-12 | An exit occupies the FLOOR level. |
| Exits.Exit.Interact | src/unsw/dungeon/entity/Exit.java:14-25 | An exit admits exactly the players. |
| EnemyStates.State.constructor | src/unsw/dungeon/entity/enemy/Enemy.java:35-36 | A state object carries its behaviour. |
| EnemyStates.Enemy.constructor | src/unsw/dungeon/entity/enemy/Enemy.java:31-51 | A new enemy is alive at its cell with two distinct fresh states, roaming and fleeing. It starts in the roaming state. |
| EnemyStates.Enemy.Level | src/unsw/dungeon/entity/enemy/Enemy.java:32 | An enemy occupies the OBJECT level. |
| EnemyStates.Enemy.Kill | src/unsw/dungeon/entity/enemy/Enemy.java:61-64 | kill clears the alive flag and leaves the state alone. |
| EnemyStates.Enemy.Roam | src/unsw/dungeon/entity/enemy/Enemy.java:66-68 | roam dispatches to the current state's move, once. |
| EnemyStates.Enemy.Flee | src/unsw/dungeon/entity/enemy/Enemy.java:70-72 | flee dispatches to the current state's move too, not to a fleeing one. |
| EnemyStates.Enemy.SetState | src/unsw/dungeon/entity/enemy/Enemy.java:74-76 | setState replaces the state and nothing else. |
| EnemyStates.Enemy.GetRoamState | src/unsw/dungeon/entity/enemy/Enemy.java:78-80 | Returns the roaming state. |
| EnemyStates.Enemy.GetFleeState | src/unsw/dungeon/entity/enemy/Enemy.java:82-84 | Returns the fleeing state. |
| EnemyStates.Enemy.GetState | src/unsw/dungeon/entity/enemy/Enemy.java:86-88 | Returns the current state. |
| EnemyStates.Enemy.Interact | src/unsw/dungeon/entity/enemy/Enemy.java:90-109 | The same combat rule as the legacy enemy. A non-player is refused. For a player, the answer is whether some inventory entry's use on this enemy succeeds, and the player dies iff none does. The player's position, inventory, listener lists and keys are untouched. |
| EnemyStates.Enemy.PlayerMoveEventHandler | src/unsw/dungeon/entity/enemy/Enemy.java:39-41 | Each player move dispatches once to the current state. |
| EnemyStates.Enemy.PlayerMoveIntentHandler | src/unsw/dungeon/entity/enemy/Enemy.java:43-49 | No objection unless the player steps onto the enemy; then the player's interact answer. |
| RoamBehaviours.RoamBehaviour.constructor | src/unsw/dungeon/entity/enemy/RoamBehaviour.java:10-12 | The behaviour drives the given enemy. |
| RoamBehaviours.RoamBehaviour.Move | src/unsw/dungeon/entity/enemy/RoamBehaviour.java:15-35 | The enemy ends where the first successful step of the roam plan leads, and its alive flag is untouched. |
| GameHooks.IntentRegistration | src/unsw/dungeon/GameHooks.java:32-59 | Boulders, switches, portals and doors register exactly one intent handler, owned by the loaded entity. Other kinds register none. |
| GameHooks.EventRegistration | src/unsw/dungeon/GameHooks.java:61-87 | Treasure, keys, swords and potions register exactly one location-changed handler, owned by the loaded entity. Other kinds register none. |
| GameHooks.RegistrationsAreExclusive | src/unsw/dungeon/GameHooks.java:17-87 | No kind registers on both lists. Player, wall, exit, enemy and saw register on neither. |
| GameHooks.OnLoad | src/unsw/dungeon/GameHooks.java:17-87 | onLoad appends the entity's registrations to the player's lists, and nothing else. |
| GameHooks.IntentsFollowLoadOrder | src/unsw/dungeon/DungeonLoader.java:68-77 | The moveIntent handlers of a later batch of entities come after those of an earlier one. |
| GameHooks.EventsFollowLoadOrder | src/unsw/dungeon/DungeonLoader.java:68-77 | The moveEvent handlers of a later batch of entities come after those of an earlier one. |
| GameHooks.HandlersBelongToListeners | src/unsw/dungeon/GameHooks.java:32-87 | Every registered handler belongs to a loaded entity of a kind that listens on that list. |
| Dungeons.Dungeon.constructor | src/unsw/dungeon/DungeonLoader.java:54-61 | A new dungeon has its size, no entities, and a fresh player at (0, 0). |
| Dungeons.Dungeon.AddEntity | src/unsw/dungeon/DungeonLoader.java:71-73 | addEntity appends. |
| Loader.KindOf | src/unsw/dungeon/DungeonLoader.java:88-168 | The type strings select exactly the thirteen kinds. Any other string reaches the default branch. |
| Loader.KindNamesRoundTrip | src/unsw/dungeon/DungeonLoader.java:88-168 | Every kind is selected by its own type string. |
| Loader.Decode | src/unsw/dungeon/DungeonLoader.java:83-170 | A record throws iff type, x or y is missing, a door, key or portal has no id, or a saw has no orientation. It is skipped iff its type is unknown. Otherwise the entity has the record's kind and cell, and the player reuses serial 0. A switch id defaults to -1 and a portal's activation to true. |
| Loader.ThrowIsFinal | src/unsw/dungeon/DungeonLoader.java:68-77 | Once a record throws, the load has stopped: later records change nothing. |
| Loader.ThrownIffSomeRecordThrows | src/unsw/dungeon/DungeonLoader.java:68-77 | The load stops iff some record meets Throws, the condition under which loadEntity raises a JSONException. |
| Loader.EntitiesComeFromRecords | src/unsw/dungeon/DungeonLoader.java:68-77 | Every entity added was built from some record. |
| Loader.CompletedLoadKeepsEveryBuiltEntity | src/unsw/dungeon/DungeonLoader.java:68-77 | In a load that completes, every record that builds an entity has it added. A skipped record costs only itself. |
| Loader.EntitiesAreDistinctObjects | src/unsw/dungeon/DungeonLoader.java:88-164 | Entities are added in record order. Every non-player entity is a distinct object; only the player can be added twice. |
| Loader.FanOut | src/unsw/dungeon/DungeonLoader.java:190-195 | A fan-out tells every hook once, in list order. |
| Loader.WithHookAddsOnce | src/unsw/dungeon/DungeonLoader.java:183-188 | addHook keeps the list's order and makes the hook present. It adds the hook only when absent, is idempotent, and keeps a duplicate-free list duplicate-free. |
| Loader.LoaderComposite.constructor | src/unsw/dungeon/DungeonLoader.java:176-181 | The composite holds the given hooks in order, duplicates included. |
| Loader.LoaderComposite.AddHook | src/unsw/dungeon/DungeonLoader.java:183-188 | The new list is WithHook of the old. |
| Loader.LoaderComposite.OnLoad | src/unsw/dungeon/DungeonLoader.java:190-279 | Every hook is told once, in order. The player's lists grow by the entity's registrations, once per GameHooks in the list. |
| Loader.LoaderComposite.PostLoad | src/unsw/dungeon/DungeonLoader.java:281-286 | Every hook is told postLoad once, in order. |
| Loader.SingleRulesHookRegistersOnce | src/unsw/dungeon/DungeonLoader.java:65-66 | With the single GameHooks that load adds, the player's lists are exactly GameHooks' registrations in load order. |
| Loader.LoadEntity | src/unsw/dungeon/DungeonLoader.java:83-170 | The outcome is Decode's. A built entity is announced to every hook, and a "player" record places the player. A skipped or throwing record changes nothing. |
| Loader.LoadRecord | src/unsw/dungeon/DungeonLoader.java:68-76 | One pass of load's loop: the load state after i records, read off the dungeon, its player and the composite, becomes the state after i + 1 by Decode's outcome on record i. It reports a throw iff record i throws. |
| Loader.Load | src/unsw/dungeon/DungeonLoader.java:50-81 | The dungeon has the given size and the entities of PlanOf. The hook list is the given hooks plus one fresh GameHooks. postLoad is announced iff no record threw. The player's lists hold the registrations of the added entities. The player stands where the last "player" record put it. |
| Goals.ExitsOf | src/unsw/dungeon/goals/GoalStrategyExit.java:12 | The filter keeps exactly the exits. |
| Goals.Goal.constructor | src/unsw/dungeon/goals/Goal.java:10-13 | A goal holds its dungeon and strategy. |
| Goals.Goal.Achieved | src/unsw/dungeon/goals/Goal.java:18-20 | achieved is the strategy's verdict on this goal's dungeon. |
| Goals.Goal.GetDungeon | src/unsw/dungeon/goals/Goal.java:25-27 | Returns the goal's dungeon. |
| Goals.ExitAchieved | src/unsw/dungeon/goals/GoalStrategyExit.java:8-20 | The exit goal is achieved iff some entity of the dungeon is an activated exit. |
| Goals.OnlyExitsMatter | src/unsw/dungeon/goals/GoalStrategyExit.java:12-17 | Only exits decide the exit goal. |
| Goals.ExitGoalIgnoresOrder | src/unsw/dungeon/goals/GoalStrategyExit.java:8-20 | Reordering the dungeon's entities does not change the exit goal. |
| Goals.ExitGoalOverBatches | src/unsw/dungeon/goals/GoalStrategyExit.java:8-20 | The goal over two batches of entities holds iff it holds over either. |
| Goals.FreshlyLoadedExitsAreInactive | src/unsw/dungeon/DungeonLoader.java:107-110 | No exit of a freshly loaded dungeon is activated, so the exit goal is not met after a load. |

## Left out

- I/O and parsing: reading the JSON file, and `width`, `height` and `goal-condition` parsing, are left out. The records are a list of optional fields. A field of the wrong JSON type is not modelled.
- The goal factory: `GoalFactory.create` and `setGoal` are not part of this model, so `Load` does not set a goal.
- Output: `System.out.println` in `load` and `GameHooks.postLoad` is left out. A caught `Error` leaves no trace other than the skipped record.
- Entity objects: they are `Spawned` values with a serial standing for the object's identity. Their own classes (Switch, Door, Portal, Treasure, Sword, Saw, Wall, Player) are not part of this model beyond what the loader sets on them.
- The UI hook: a load hook other than GameHooks (the UI's) is only recorded as told. Its effects are not modelled.
- `Dungeon`, `MovableEntity` and the event emitters are not part of this model. Their answers are inputs. An emitter's objection is taken to be free of side effects.
- `hide()` in `kill()` is left out: it only affects display.
- `Player.kill`, `Player.interact` and `hasItemUsable` are not part of this model. kill clears an alive flag; the other two answers are inputs.
- `Enemies.Enemy.PlayerMoveEventHandler`: whether the player holds a usable potion is an input, because `hasItemUsable` is not part of this model.
- `Enemies.Enemy.PlayerMoveIntentHandler`: the player's interact answer is an input, because `Player.interact` is not part of this model.
- `Boulders.Boulder.PlayerMoveIntentHandler`: the player's interact answer is an input, for the same reason.
- `EnemyStates.Enemy.PlayerMoveIntentHandler`: the player's interact answer is an input, for the same reason.
- `Enemies.Enemy.Move`: answers true after setXY even when setXY ignores an invalid target, as the source does. A roam then stops trying further steps.
- `Boulders.Boulder.SetXY`: setXY comes from `MovableEntity`, whose code is not part of this model. It is taken to behave like `Enemy.setXY`.
- `Boulders.Boulder.Move`: the occupant at the target cell (`getEntityAt`) is an input that is consistent with nothing else.
- `EnemyStates.Enemy.Roam`: the effect of `state.move` is not modelled, because the `State` classes are not part of this model. Only the dispatch is recorded.
- `EnemyStates.Enemy.Flee`: the effect of `state.move` is not modelled, for the same reason.
- `EnemyStates.Enemy.PlayerMoveEventHandler`: the effect of `state.move` is not modelled, for the same reason.
- Keys: key ids are not matched against doors, because `Door` is not part of this model. A non-key usable item's use has no modelled effect.
- `Keys.Key.constructor`: the initial use count comes from `ItemEntity`, whose code is not part of this model, so it is a parameter.
- Item effects on enemies: `Sword` extends `Entity` only, so it is not `Usable` and never defends a player in a fight. `InvincibilityPotion` declares no `implements Usable`; whether its superclass `ItemEntity` does is outside this model. A usable potion would be an `OtherUsable` inventory entry whose answer is an input.
- `Loader.Load`: when a record throws, Java's `load` lets the JSONException escape (only `Error` is caught), so no caller receives the partly filled dungeon. The model still returns it, with `completed` false, so that its contract can say what was done before the throw.
- Integer width: integers are unbounded. Positions and counters never come near Java's 32-bit limits in this game, so wrap-around is not modelled.
- Concurrency: the JavaFX property listeners and the user interface (the `ui` package) are left out.

## Findings

| source | as written | input that shows it | evidently intended | confidence | as-written member | corrected member |
|---|---|---|---|---|---|---|
| src/unsw/dungeon/entity/Key.java:36-38 | `getUses()` returns the constant 0, so `use` always refuses at its first check | a key with one use left, used on a target that accepts it: `use` answers false and the key is never used up | `getUses()` reports the use counter that `use` decrements | not executed | Keys.UseAsWrittenRefusesUsableKey | Keys.UseDecrementsOnlyOnSuccess |
