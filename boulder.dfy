/**
 * The boulder of unsw/dungeon/entity/Boulder.java: an OBJECT-level entity the player pushes
 * by stepping onto it. A push is stopped by any obstruction except an enemy, which the
 * boulder crushes.
 */
module Boulders {
  import opened Optional
  import opened Events
  import opened Meta
  import opened Collaborators
  import opened Movement
  import opened Enemies

  /** What Dungeon.getEntityAt(OBJECT, x, y) answers: nothing, an enemy, or another entity. */
  datatype Occupant = Nobody | AnEnemy(enemy: Enemy) | SomethingElse

  /** The enemy a push may crush, if the target cell holds one. */
  function Crushable(obstruction: Occupant): set<Enemy>
  {
    if obstruction.AnEnemy? then {obstruction.enemy} else {}
  }

  /** The outcome of one push: its answer, the boulder's track, and the enemy it crushed. */
  datatype Push = Push(ok: bool, track: Track, crushed: Option<Enemy>)

  /**
   * Boulder.move(dx, dy): an objection from moveIntent refuses; a blocked target refuses
   * unless it holds an enemy, which is crushed; otherwise (or after crushing) setXY(target).
   */
  function PushOutcome(t: Track, dx: int, dy: int, w: Surroundings, obstruction: Occupant): Push
  {
    var nx, ny := t.x + dx, t.y + dy;
    if !w.moveIntent(LocationChanged(t.x, t.y, nx, ny)) then Push(false, t, None)
    else if w.isPositionBlocked(nx, ny) && !obstruction.AnEnemy? then Push(false, t, None)
    else
      var crushed := if w.isPositionBlocked(nx, ny) then Some(obstruction.enemy) else None;
      Push(true, SetXY(t, nx, ny, w.positionIsValid), crushed)
  }

  /**
   * A push moves like an enemy's move when the target is free; on a blocked target it
   * fails, leaving the boulder where it was, unless the obstruction is an enemy, which is
   * crushed while the boulder goes on to the target.
   */
  lemma {:induction false} PushAgreesWithStep(t: Track, dx: int, dy: int, w: Surroundings, obstruction: Occupant)
    ensures var p := PushOutcome(t, dx, dy, w, obstruction);
      && (!w.isPositionBlocked(t.x + dx, t.y + dy) ==> (p.ok, p.track) == Step(t, dx, dy, w) && p.crushed == None)
      && (w.isPositionBlocked(t.x + dx, t.y + dy) && w.moveIntent(LocationChanged(t.x, t.y, t.x + dx, t.y + dy)) ==>
            if obstruction.AnEnemy?
            then p.ok && p.crushed == Some(obstruction.enemy) && p.track == Movement.SetXY(t, t.x + dx, t.y + dy, w.positionIsValid)
            else !p.ok && p.track == t && p.crushed == None)
  {
  }

  class Boulder {
    var x: int
    var y: int
    /** Every LocationChanged sent through this boulder's moveEvent, oldest first. */
    var moveEvents: seq<LocationChanged>

    function Track(): Track
      reads this
    {
      Movement.Track(x, y, moveEvents)
    }

    constructor (x0: int, y0: int)
      ensures x == x0 && y == y0 && moveEvents == []
    {
      x, y, moveEvents := x0, y0, [];
    }

    function Level(): (r: EntityLevel)
      ensures r == OBJECT
    {
      OBJECT
    }

    /**
     * setXY is MovableEntity's, which is not part of this model; it is taken to behave as
     * Enemy.setXY does: an invalid target is ignored, a valid one is written and announced.
     */
    method SetXY(newX: int, newY: int, w: Surroundings)
      modifies this`x, this`y, this`moveEvents
      ensures Track() == Movement.SetXY(old(Track()), newX, newY, w.positionIsValid)
    {
      if !w.positionIsValid(newX, newY) {
        return;
      }
      moveEvents := moveEvents + [LocationChanged(x, y, newX, newY)];
      x, y := newX, newY;
    }

    /**
     * move(dx, dy): refused with nothing changed on an objection or on a target blocked by
     * anything but an enemy; a blocking enemy is killed and the boulder moves on to the target.
     */
    method Move(dx: int, dy: int, w: Surroundings, obstruction: Occupant) returns (ok: bool)
      modifies this`x, this`y, this`moveEvents, Crushable(obstruction)
      ensures var p := PushOutcome(old(Track()), dx, dy, w, obstruction);
        && ok == p.ok && Track() == p.track
        && (p.crushed.Some? ==> !p.crushed.value.alive)
        && (p.crushed.None? ==> unchanged(Crushable(obstruction)))
      ensures forall e: Enemy | e in Crushable(obstruction) ::
        e.x == old(e.x) && e.y == old(e.y) && e.moveEvents == old(e.moveEvents)
      ensures !ok ==> unchanged(Crushable(obstruction))
    {
      var oldX, oldY := x, y;
      var newX, newY := oldX + dx, oldY + dy;
      var e := LocationChanged(oldX, oldY, newX, newY);
      if !w.moveIntent(e) {
        return false;
      }
      if w.isPositionBlocked(newX, newY) {
        if obstruction.AnEnemy? {
          obstruction.enemy.Kill();
        } else {
          return false;
        }
      }
      SetXY(newX, newY, w);
      ok := true;
    }

    /**
     * interact(actor): anything but a Player is refused without movement; a Player pushes
     * the boulder by the offset from the player to the boulder.
     */
    method Interact(actor: Actor, w: Surroundings, obstruction: Occupant) returns (ok: bool)
      modifies this`x, this`y, this`moveEvents
      modifies if actor.PlayerActor? then Crushable(obstruction) else {}
      ensures !actor.PlayerActor? ==> !ok && Track() == old(Track())
      ensures actor.PlayerActor? ==>
        var p := PushOutcome(old(Track()), old(x) - actor.player.x, old(y) - actor.player.y, w, obstruction);
        && ok == p.ok && Track() == p.track
        && (p.crushed.Some? ==> !p.crushed.value.alive)
        && (p.crushed.None? ==> unchanged(Crushable(obstruction)))
      ensures actor.PlayerActor? ==> forall e: Enemy | e in Crushable(obstruction) ::
        e.x == old(e.x) && e.y == old(e.y) && e.moveEvents == old(e.moveEvents)
      ensures actor.PlayerActor? && !ok ==> unchanged(Crushable(obstruction))
    {
      if !actor.PlayerActor? {
        return false;
      }
      var player := actor.player;
      ok := Move(x - player.x, y - player.y, w, obstruction);
    }

    /**
     * The handler of the player's move intents: no objection unless the player is stepping
     * onto this boulder's cell; then whatever player.interact(this) answers (an input here).
     */
    function PlayerMoveIntentHandler(event: LocationChanged, playerInteracts: bool): (r: bool)
      reads this`x, this`y
      ensures (x != event.newX || y != event.newY) ==> r
      ensures (x == event.newX && y == event.newY) ==> r == playerInteracts
    {
      IntentVerdict(x, y, event, playerInteracts)
    }
  }
}
