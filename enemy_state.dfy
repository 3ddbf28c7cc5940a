/**
 * The state-pattern enemy of unsw/dungeon/entity/enemy/Enemy.java: it holds a roam state
 * and a flee state built at construction, and a current state to which every movement
 * request is passed on. The state classes' move is not part of this model, so each
 * hand-over is recorded instead.
 */
module EnemyStates {
  import opened Events
  import opened Meta
  import opened Collaborators
  import opened Movement

  /** The states an enemy builds: which class each is an instance of. */
  datatype Behaviour = Roaming | Fleeing

  /** A movement state (roamState or fleeState). */
  class State {
    const behaviour: Behaviour

    constructor (b: Behaviour)
      ensures behaviour == b
    {
      behaviour := b;
    }
  }

  /** One call state.move(player): the state that was asked to move, and for which player. */
  datatype Dispatch = Dispatch(state: State, player: Player)

  class Enemy {
    var x: int
    var y: int
    var alive: bool
    const roam: State
    const flee: State
    var state: State
    /** Every state.move(player) call made so far, oldest first. */
    var dispatched: seq<Dispatch>

    /** A new enemy is alive and in its own, fresh roam state. */
    constructor (x0: int, y0: int)
      ensures x == x0 && y == y0 && alive
      ensures fresh(roam) && fresh(flee) && roam != flee
      ensures roam.behaviour == Roaming && flee.behaviour == Fleeing
      ensures state == roam && dispatched == []
    {
      x, y, alive := x0, y0, true;
      roam := new State(Roaming);
      flee := new State(Fleeing);
      state := roam;
      dispatched := [];
    }

    function Level(): (r: EntityLevel)
      ensures r == OBJECT
    {
      OBJECT
    }

    method Kill()
      modifies this`alive
      ensures !alive
      ensures state == old(state) && dispatched == old(dispatched)
    {
      alive := false;
    }

    /** roam(p) hands the move to the current state, whichever it is. */
    method Roam(p: Player)
      modifies this`dispatched
      ensures dispatched == old(dispatched) + [Dispatch(state, p)]
    {
      dispatched := dispatched + [Dispatch(state, p)];
    }

    /** flee(p) also hands the move to the current state, whichever it is. */
    method Flee(p: Player)
      modifies this`dispatched
      ensures dispatched == old(dispatched) + [Dispatch(state, p)]
    {
      dispatched := dispatched + [Dispatch(state, p)];
    }

    /** setState(s): the only writer of the current state. */
    method SetState(s: State)
      modifies this`state
      ensures state == s
      ensures dispatched == old(dispatched) && alive == old(alive)
    {
      state := s;
    }

    function GetRoamState(): (r: State)
      ensures r == roam
    {
      roam
    }

    function GetFleeState(): (r: State)
      ensures r == flee
    {
      flee
    }

    function GetState(): (r: State)
      reads this`state
      ensures r == state
    {
      state
    }

    /**
     * interact(actor): as in the other enemy class, anything but a Player is refused; the
     * player's Usable items are tried in order and the first success answers true, otherwise
     * the player is killed and the answer is false.
     */
    method Interact(actor: Actor) returns (ok: bool)
      modifies CombatFrame(actor)
      ensures !actor.PlayerActor? ==> !ok
      ensures actor.PlayerActor? ==> ok == old(Defended(actor.player.inventory, EnemyTarget))
      ensures actor.PlayerActor? ==> actor.player.alive == (old(actor.player.alive) && ok)
      ensures actor.PlayerActor? ==>
        && actor.player.x == old(actor.player.x) && actor.player.y == old(actor.player.y)
        && actor.player.inventory == old(actor.player.inventory)
        && actor.player.moveIntent == old(actor.player.moveIntent)
        && actor.player.moveEvent == old(actor.player.moveEvent)
      ensures actor.PlayerActor? ==> unchanged(KeysOf(old(actor.player.inventory)))
    {
      if !actor.PlayerActor? {
        return false;
      }
      var p := actor.player;
      var inv := p.inventory;
      var i := 0;
      while i < |inv|
        invariant 0 <= i <= |inv|
        invariant unchanged(p) && unchanged(KeysOf(inv))
        invariant forall j :: 0 <= j < i ==> !UseSucceeds(inv[j], EnemyTarget)
      {
        var item := inv[i];
        if item.KeyItem? {
          assert item.key in KeysOf(inv);
          var result := item.key.Use(EnemyTarget);
          if result {
            return true;
          }
        } else if item.OtherUsable? {
          if item.answer {
            return true;
          }
        }
        i := i + 1;
      }
      p.Kill();
      return false;
    }

    /** The handler of the player's move events hands the move to the current state. */
    method PlayerMoveEventHandler(player: Player, event: LocationChanged)
      modifies this`dispatched
      ensures dispatched == old(dispatched) + [Dispatch(state, player)]
    {
      dispatched := dispatched + [Dispatch(state, player)];
    }

    /**
     * The handler of the player's move intents: no objection unless the player is stepping
     * onto this enemy's cell; then whatever player.interact(this) answers (an input here).
     */
    function PlayerMoveIntentHandler(event: LocationChanged, playerInteracts: bool): (r: bool)
      reads this`x, this`y
      ensures (x != event.newX || y != event.newY) ==> r
      ensures (x == event.newX && y == event.newY) ==> r == playerInteracts
    {
      IntentVerdict(x, y, event, playerInteracts)
    }
  }
}
