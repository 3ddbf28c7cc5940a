/**
 * RoamBehaviour (unsw/dungeon/entity/enemy/RoamBehaviour.java): the roam policy as a
 * separate behaviour object driving an enemy of unsw/dungeon/entity/Enemy.java through its
 * moveRight, moveLeft, moveDown and moveUp.
 */
module RoamBehaviours {
  import opened Collaborators
  import opened Movement
  import opened Enemies

  class RoamBehaviour {
    const enemy: Enemy

    constructor (e: Enemy)
      ensures enemy == e
    {
      enemy := e;
    }

    /**
     * move(p): at most one horizontal attempt toward the player, then a vertical attempt
     * toward the player only if no attempt has succeeded; exactly Enemy.roam's policy.
     */
    method Move(p: Player, w: Surroundings)
      modifies enemy`x, enemy`y, enemy`moveEvents
      ensures enemy.Track() == Attempt(old(enemy.Track()), Toward(p.x - old(enemy.x), p.y - old(enemy.y)), w)
      ensures enemy.alive == old(enemy.alive)
    {
      var dX := p.x - enemy.x;
      var dY := p.y - enemy.y;
      ghost var t0 := enemy.Track();
      ghost var vertical := if dY > 0 then [Down] else if dY < 0 then [Up] else [];
      var moveSuccess := false;
      if dX > 0 && !moveSuccess {
        moveSuccess := enemy.MoveRight(w);
        AttemptFirst(t0, Right, vertical, w);
      }
      if dX < 0 && !moveSuccess {
        moveSuccess := enemy.MoveLeft(w);
        AttemptFirst(t0, Left, vertical, w);
      }
      assert !moveSuccess ==> enemy.Track() == t0;
      assert !moveSuccess ==> Attempt(t0, Toward(dX, dY), w) == Attempt(t0, vertical, w);
      if dY > 0 && !moveSuccess {
        moveSuccess := enemy.MoveDown(w);
        AttemptFirst(t0, Down, [], w);
      }
      if dY < 0 && !moveSuccess {
        moveSuccess := enemy.MoveUp(w);
        AttemptFirst(t0, Up, [], w);
      }
    }
  }
}
