/**
 * The enemy of unsw/dungeon/entity/Enemy.java: an OBJECT-level movable entity that chases
 * the player (roam) or runs from it (flee) one cell per player move, and that kills the
 * player on contact unless one of the player's Usable items succeeds against it.
 */
module Enemies {
  import opened Events
  import opened Meta
  import opened Keys
  import opened Collaborators
  import opened Movement

  class Enemy {
    var x: int
    var y: int
    var alive: bool
    /** Every LocationChanged sent through this enemy's moveEvent, oldest first. */
    var moveEvents: seq<LocationChanged>

    function Track(): Track
      reads this
    {
      Movement.Track(x, y, moveEvents)
    }

    constructor (x0: int, y0: int)
      ensures x == x0 && y == y0 && alive && moveEvents == []
    {
      x, y, alive, moveEvents := x0, y0, true, [];
    }

    function Level(): (r: EntityLevel)
      ensures r == OBJECT
    {
      OBJECT
    }

    /**
     * setXY(newX, newY): ignored when the dungeon calls the target invalid; otherwise writes
     * the coordinates that differ and emits one move event carrying (old, new).
     */
    method SetXY(newX: int, newY: int, w: Surroundings)
      modifies this`x, this`y, this`moveEvents
      ensures Track() == Movement.SetXY(old(Track()), newX, newY, w.positionIsValid)
      ensures !w.positionIsValid(newX, newY) ==> Track() == old(Track())
      ensures w.positionIsValid(newX, newY) ==>
        x == newX && y == newY && moveEvents == old(moveEvents) + [LocationChanged(old(x), old(y), newX, newY)]
    {
      var oldX, oldY := x, y;
      if !w.positionIsValid(newX, newY) {
        return;
      }
      if oldX != newX {
        x := newX;
      }
      if oldY != newY {
        y := newY;
      }
      moveEvents := moveEvents + [LocationChanged(oldX, oldY, newX, newY)];
    }

    /**
     * move(dx, dy): refused, with nothing changed, when moveIntent objects or the target is
     * blocked; otherwise setXY(target) and success, even when setXY ignores the target.
     */
    method Move(dx: int, dy: int, w: Surroundings) returns (ok: bool)
      modifies this`x, this`y, this`moveEvents
      ensures (ok, Track()) == Step(old(Track()), dx, dy, w)
      ensures !w.moveIntent(LocationChanged(old(x), old(y), old(x) + dx, old(y) + dy)) ==> !ok && Track() == old(Track())
      ensures w.isPositionBlocked(old(x) + dx, old(y) + dy) ==> !ok && Track() == old(Track())
    {
      var oldX, oldY := x, y;
      var newX, newY := oldX + dx, oldY + dy;
      var e := LocationChanged(oldX, oldY, newX, newY);
      if !w.moveIntent(e) {
        return false;
      }
      if w.isPositionBlocked(newX, newY) {
        return false;
      }
      SetXY(newX, newY, w);
      ok := true;
    }

    method MoveUp(w: Surroundings) returns (ok: bool)
      modifies this`x, this`y, this`moveEvents
      ensures (ok, Track()) == Step(old(Track()), Up.DX(), Up.DY(), w)
    {
      ok := Move(0, -1, w);
    }

    method MoveDown(w: Surroundings) returns (ok: bool)
      modifies this`x, this`y, this`moveEvents
      ensures (ok, Track()) == Step(old(Track()), Down.DX(), Down.DY(), w)
    {
      ok := Move(0, 1, w);
    }

    method MoveLeft(w: Surroundings) returns (ok: bool)
      modifies this`x, this`y, this`moveEvents
      ensures (ok, Track()) == Step(old(Track()), Left.DX(), Left.DY(), w)
    {
      ok := Move(-1, 0, w);
    }

    method MoveRight(w: Surroundings) returns (ok: bool)
      modifies this`x, this`y, this`moveEvents
      ensures (ok, Track()) == Step(old(Track()), Right.DX(), Right.DY(), w)
    {
      ok := Move(1, 0, w);
    }

    /** kill(): the enemy is no longer alive (hiding it is MovableEntity's, not modelled). */
    method Kill()
      modifies this`alive
      ensures !alive
    {
      alive := false;
    }

    /**
     * roam(p): one horizontal step toward the player, and only if that was not made, one
     * vertical step toward the player; the answer is always true.
     */
    method Roam(p: Player, w: Surroundings) returns (r: bool)
      modifies this`x, this`y, this`moveEvents
      ensures r
      ensures Track() == Attempt(old(Track()), Toward(p.x - old(x), p.y - old(y)), w)
    {
      var dX := p.x - x;
      var dY := p.y - y;
      ghost var t0 := Track();
      ghost var vertical := if dY > 0 then [Down] else if dY < 0 then [Up] else [];
      var moveSuccess := false;
      if dX > 0 && !moveSuccess {
        moveSuccess := MoveRight(w);
        AttemptFirst(t0, Right, vertical, w);
      }
      if dX < 0 && !moveSuccess {
        moveSuccess := MoveLeft(w);
        AttemptFirst(t0, Left, vertical, w);
      }
      assert !moveSuccess ==> Track() == t0;
      assert !moveSuccess ==> Attempt(t0, Toward(dX, dY), w) == Attempt(t0, vertical, w);
      if dY > 0 && !moveSuccess {
        moveSuccess := MoveDown(w);
        AttemptFirst(t0, Down, [], w);
      }
      if dY < 0 && !moveSuccess {
        moveSuccess := MoveUp(w);
        AttemptFirst(t0, Up, [], w);
      }
      return true;
    }

    /**
     * flee(p): the same policy with every direction reversed, away from the player; the
     * answer is always true.
     */
    method Flee(p: Player, w: Surroundings) returns (r: bool)
      modifies this`x, this`y, this`moveEvents
      ensures r
      ensures Track() == Attempt(old(Track()), Away(p.x - old(x), p.y - old(y)), w)
    {
      var dX := p.x - x;
      var dY := p.y - y;
      ghost var t0 := Track();
      ghost var vertical := if dY > 0 then [Up] else if dY < 0 then [Down] else [];
      var moveSuccess := false;
      if dX > 0 && !moveSuccess {
        moveSuccess := MoveLeft(w);
        AttemptFirst(t0, Left, vertical, w);
      }
      if dX < 0 && !moveSuccess {
        moveSuccess := MoveRight(w);
        AttemptFirst(t0, Right, vertical, w);
      }
      assert !moveSuccess ==> Track() == t0;
      assert !moveSuccess ==> Attempt(t0, Away(dX, dY), w) == Attempt(t0, vertical, w);
      if dY > 0 && !moveSuccess {
        moveSuccess := MoveUp(w);
        AttemptFirst(t0, Up, [], w);
      }
      if dY < 0 && !moveSuccess {
        moveSuccess := MoveDown(w);
        AttemptFirst(t0, Down, [], w);
      }
      return true;
    }

    /**
     * interact(actor): anything but a Player is refused. For a Player, each Usable of the
     * inventory is used on this enemy in order and the first success answers true; when
     * none succeeds the player is killed and the answer is false. Keys are never used up
     * here: an enemy refuses to interact with an item.
     */
    method Interact(actor: Actor) returns (ok: bool)
      modifies CombatFrame(actor)
      ensures !actor.PlayerActor? ==> !ok
      ensures actor.PlayerActor? ==> ok == old(Defended(actor.player.inventory, EnemyTarget))
      ensures actor.PlayerActor? ==> actor.player.alive == (old(actor.player.alive) && ok)
      ensures actor.PlayerActor? ==>
        && actor.player.x == old(actor.player.x) && actor.player.y == old(actor.player.y)
        && actor.player.inventory == old(actor.player.inventory)
        && actor.player.moveIntent == old(actor.player.moveIntent)
        && actor.player.moveEvent == old(actor.player.moveEvent)
      ensures actor.PlayerActor? ==> unchanged(KeysOf(old(actor.player.inventory)))
    {
      if !actor.PlayerActor? {
        return false;
      }
      var p := actor.player;
      var inv := p.inventory;
      var i := 0;
      while i < |inv|
        invariant 0 <= i <= |inv|
        invariant unchanged(p) && unchanged(KeysOf(inv))
        invariant forall j :: 0 <= j < i ==> !UseSucceeds(inv[j], EnemyTarget)
      {
        var item := inv[i];
        if item.KeyItem? {
          assert item.key in KeysOf(inv);
          var result := item.key.Use(EnemyTarget);
          if result {
            return true;
          }
        } else if item.OtherUsable? {
          if item.answer {
            return true;
          }
        }
        i := i + 1;
      }
      p.Kill();
      return false;
    }

    /**
     * The handler of the player's move events: flee when the player holds a usable
     * InvincibilityPotion (the answer of player.hasItemUsable, an input here), roam otherwise.
     */
    method PlayerMoveEventHandler(player: Player, event: LocationChanged, holdsPotion: bool, w: Surroundings)
      modifies this`x, this`y, this`moveEvents
      ensures holdsPotion ==> Track() == Attempt(old(Track()), Away(player.x - old(x), player.y - old(y)), w)
      ensures !holdsPotion ==> Track() == Attempt(old(Track()), Toward(player.x - old(x), player.y - old(y)), w)
    {
      if holdsPotion {
        var _ := Flee(player, w);
      } else {
        var _ := Roam(player, w);
      }
    }

    /**
     * The handler of the player's move intents: no objection unless the player is stepping
     * onto this enemy's cell; then whatever player.interact(this) answers (an input here).
     */
    function PlayerMoveIntentHandler(event: LocationChanged, playerInteracts: bool): (r: bool)
      reads this`x, this`y
      ensures (x != event.newX || y != event.newY) ==> r
      ensures (x == event.newX && y == event.newY) ==> r == playerInteracts
    {
      IntentVerdict(x, y, event, playerInteracts)
    }
  }
}
