/**
 * The exit of unsw/dungeon/entity/Exit.java: a FLOOR-level entity that admits any Player.
 * The activation flag GoalStrategyExit reads is not declared by Exit.java; the goals read it
 * from the `activated` slot of the exit's entity (see Goals.IsActivatedExit).
 */
module Exits {
  import opened Meta
  import opened Collaborators

  datatype Exit = Exit {
    function Level(): (r: EntityLevel)
      ensures r == FLOOR
    {
      FLOOR
    }

    /**
     * interact(actor): a Player is always admitted (the activation and goal checks are
     * only comments in the source); anything else is refused. Nothing changes.
     */
    function Interact(actor: Actor): (r: bool)
      ensures r <==> actor.PlayerActor?
    {
      actor.PlayerActor?
    }
  }
}
