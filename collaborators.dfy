/**
 * The collaborators the modelled classes call but whose code is not part of this model:
 * the Dungeon's position checks, MovableEntity.isPositionBlocked, an entity's moveIntent
 * emitter, and the Player with its inventory and listener lists. Only what the modelled
 * code asks of them appears here; their answers are inputs.
 */
module Collaborators {
  import opened Events
  import opened Meta
  import opened Keys

  /**
   * What the collaborators answer to a moving entity during one call:
   * moveIntent: whether this entity's moveIntent.emit(e) raises no objection (taken to have no side effects);
   * isPositionBlocked: MovableEntity.isPositionBlocked(x, y);
   * positionIsValid: Dungeon.positionIsValid(x, y).
   */
  datatype Surroundings = Surroundings(
    moveIntent: LocationChanged -> bool,
    isPositionBlocked: (int, int) -> bool,
    positionIsValid: (int, int) -> bool)

  /**
   * An entry of the player's inventory: a Key, a Usable item of a class this model does not
   * contain (carrying what its use answers; its effects are not modelled), or an item that is
   * not Usable (a Sword, which extends Entity only). InvincibilityPotion declares no
   * `implements Usable`, but whether its superclass ItemEntity does is outside this model; a
   * usable potion would be an OtherUsable entry whose answer is an input.
   */
  datatype Item = KeyItem(key: Key) | OtherUsable(answer: bool) | NotUsable

  /** Handlers that GameHooks registers on the player's listener lists. */
  datatype HandlerKind =
    | BoulderMoveIntent | SwitchEnterIntent | PortalEnterIntent | DoorEnterIntent | ItemLocationChanged

  /** A registered handler and the serial of the entity it belongs to. */
  datatype Handler = Handler(owner: nat, kind: HandlerKind)

  /**
   * The Player, reduced to what the modelled code reads or writes: its position, whether
   * kill() has been called, its inventory, and the handler lists of its moveIntent and
   * moveEvent emitters (register appends).
   */
  class Player {
    var x: int
    var y: int
    var alive: bool
    var inventory: seq<Item>
    var moveIntent: seq<Handler>
    var moveEvent: seq<Handler>

    constructor (x0: int, y0: int)
      ensures x == x0 && y == y0 && alive
      ensures inventory == [] && moveIntent == [] && moveEvent == []
    {
      x, y, alive := x0, y0, true;
      inventory, moveIntent, moveEvent := [], [], [];
    }

    /** kill(): its body is not part of this model; it is taken to clear the alive flag. */
    method Kill()
      modifies this`alive
      ensures !alive
    {
      alive := false;
    }
  }

  /** The argument of interact(Entity): a Player, or any other entity (an item, a boulder, ...). */
  datatype Actor = PlayerActor(player: Player) | OtherActor

  /** The keys held in an inventory. */
  function KeysOf(inventory: seq<Item>): set<Key>
  {
    set i | 0 <= i < |inventory| && inventory[i].KeyItem? :: inventory[i].key
  }

  /** What an enemy's interact may write: the player (when the actor is one) and the keys it carries. */
  function CombatFrame(actor: Actor): set<object>
    reads if actor.PlayerActor? then {actor.player} else {}
  {
    if actor.PlayerActor? then {actor.player} + KeysOf(actor.player.inventory) else {}
  }

  /** Whether using this inventory entry on the target succeeds, in the current state. */
  predicate UseSucceeds(item: Item, target: Interactable)
    reads if item.KeyItem? then {item.key} else {}
  {
    match item
    case KeyItem(k) => k.WouldSucceed(target)
    case OtherUsable(answer) => answer
    case NotUsable => false
  }

  /** Whether some Usable entry of the inventory succeeds against the target. */
  predicate Defended(inventory: seq<Item>, target: Interactable)
    reads KeysOf(inventory)
  {
    exists i :: 0 <= i < |inventory| && UseSucceeds(inventory[i], target)
  }

  /**
   * Against an enemy no key helps, whatever its uses: an enemy refuses to interact with an
   * item, so the player is defended exactly when a Usable of another class succeeds.
   */
  lemma KeysNeverDefendAgainstEnemies(inventory: seq<Item>)
    ensures Defended(inventory, EnemyTarget) <==> exists i :: 0 <= i < |inventory| && inventory[i] == OtherUsable(true)
  {
    if Defended(inventory, EnemyTarget) {
      var i :| 0 <= i < |inventory| && UseSucceeds(inventory[i], EnemyTarget);
      assert inventory[i] == OtherUsable(true);
    }
    if exists i :: 0 <= i < |inventory| && inventory[i] == OtherUsable(true) {
      var i :| 0 <= i < |inventory| && inventory[i] == OtherUsable(true);
      assert UseSucceeds(inventory[i], EnemyTarget);
    }
  }
}
