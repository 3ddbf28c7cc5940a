/**
 * What every entity shares (unsw.dungeon.entity.meta): the occupancy level, the kinds the
 * loader can build, and the kinds of Interactable a Usable item can be used on.
 */
module Meta {
  import opened Optional

  /** The occupancy level of an entity. */
  datatype EntityLevel = FLOOR | OBJECT | ITEM

  /** The kinds of entity a level description can name. */
  datatype Kind =
    | PlayerKind | EnemyKind | WallKind | ExitKind | SwitchKind | BoulderKind | DoorKind
    | TreasureKind | KeyKind | SwordKind | PotionKind | PortalKind | SawKind

  /**
   * An entity object as the loader built it. `serial` stands for the object's identity:
   * the dungeon's single player has serial 0, the object built from record i has serial i + 1.
   */
  datatype Spawned = Spawned(
    serial: nat, kind: Kind, x: int, y: int,
    id: Option<int>, activated: Option<bool>, orientation: Option<string>)

  /**
   * The target of Usable.use. Enemy, Boulder and Exit are the Interactables of this model;
   * any other (a Door, say) is not, and carries the answer its interact gives an item.
   */
  datatype Interactable = EnemyTarget | BoulderTarget | ExitTarget | UnseenTarget(answer: bool)

  /**
   * What target.interact(item) answers when the actor is an item rather than a Player.
   * Enemy, Boulder and Exit answer false to every actor that is not a Player.
   */
  function AnswerToItem(target: Interactable): (r: bool)
    ensures r <==> target.UnseenTarget? && target.answer
  {
    match target
    case UnseenTarget(answer) => answer
    case _ => false
  }
}
