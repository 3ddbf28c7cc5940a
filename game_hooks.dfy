/**
 * GameHooks (unsw/dungeon/GameHooks.java): the load hook that wires the game rules. For each
 * loaded entity of a listening kind it appends that entity's handler to the moveIntent or
 * the moveEvent list of the dungeon's single player.
 */
module GameHooks {
  import opened Meta
  import opened Collaborators

  /** Kinds whose handler goes on the player's moveIntent list: Boulder, Switch, Portal, Door. */
  predicate ListensToIntents(k: Kind)
  {
    k == BoulderKind || k == SwitchKind || k == PortalKind || k == DoorKind
  }

  /** Kinds whose handler goes on the player's moveEvent list: Treasure, Key, Sword, Potion. */
  predicate ListensToEvents(k: Kind)
  {
    k == TreasureKind || k == KeyKind || k == SwordKind || k == PotionKind
  }

  /** The handlers onLoad(e) appends to the player's moveIntent list. */
  function IntentRegistration(e: Spawned): (r: seq<Handler>)
    ensures |r| == if ListensToIntents(e.kind) then 1 else 0
    ensures forall i :: 0 <= i < |r| ==> r[i].owner == e.serial && r[i].kind != ItemLocationChanged
  {
    match e.kind
    case BoulderKind => [Handler(e.serial, BoulderMoveIntent)]
    case SwitchKind => [Handler(e.serial, SwitchEnterIntent)]
    case PortalKind => [Handler(e.serial, PortalEnterIntent)]
    case DoorKind => [Handler(e.serial, DoorEnterIntent)]
    case _ => []
  }

  /** The handlers onLoad(e) appends to the player's moveEvent list. */
  function EventRegistration(e: Spawned): (r: seq<Handler>)
    ensures |r| == if ListensToEvents(e.kind) then 1 else 0
    ensures forall i :: 0 <= i < |r| ==> r[i] == Handler(e.serial, ItemLocationChanged)
  {
    if ListensToEvents(e.kind) then [Handler(e.serial, ItemLocationChanged)] else []
  }

  /** No kind listens on both lists; Player, Wall, Exit, Enemy and Saw listen on neither. */
  lemma RegistrationsAreExclusive(e: Spawned)
    ensures |IntentRegistration(e)| + |EventRegistration(e)| <= 1
    ensures e.kind in {PlayerKind, WallKind, ExitKind, EnemyKind, SawKind} ==>
      IntentRegistration(e) == [] && EventRegistration(e) == []
  {
  }

  /**
   * onLoad(e), for every kind of entity: registers e's handler, if its kind has one, on the
   * dungeon's player (never on e itself); registration appends.
   */
  method OnLoad(player: Player, e: Spawned)
    modifies player`moveIntent, player`moveEvent
    ensures player.moveIntent == old(player.moveIntent) + IntentRegistration(e)
    ensures player.moveEvent == old(player.moveEvent) + EventRegistration(e)
  {
    match e.kind {
      case BoulderKind =>
        player.moveIntent := player.moveIntent + [Handler(e.serial, BoulderMoveIntent)];
      case SwitchKind =>
        player.moveIntent := player.moveIntent + [Handler(e.serial, SwitchEnterIntent)];
      case PortalKind =>
        player.moveIntent := player.moveIntent + [Handler(e.serial, PortalEnterIntent)];
      case DoorKind =>
        player.moveIntent := player.moveIntent + [Handler(e.serial, DoorEnterIntent)];
      case TreasureKind =>
        player.moveEvent := player.moveEvent + [Handler(e.serial, ItemLocationChanged)];
      case KeyKind =>
        player.moveEvent := player.moveEvent + [Handler(e.serial, ItemLocationChanged)];
      case SwordKind =>
        player.moveEvent := player.moveEvent + [Handler(e.serial, ItemLocationChanged)];
      case PotionKind =>
        player.moveEvent := player.moveEvent + [Handler(e.serial, ItemLocationChanged)];
      case _ =>
    }
  }

  /** The moveIntent handlers one GameHooks registers while the entities es load in order. */
  function IntentHandlers(es: seq<Spawned>): seq<Handler>
  {
    if es == [] then [] else IntentHandlers(es[..|es| - 1]) + IntentRegistration(es[|es| - 1])
  }

  /** The moveEvent handlers one GameHooks registers while the entities es load in order. */
  function EventHandlers(es: seq<Spawned>): seq<Handler>
  {
    if es == [] then [] else EventHandlers(es[..|es| - 1]) + EventRegistration(es[|es| - 1])
  }

  /**
   * Registration follows load order: the moveIntent handlers of entities loaded first come
   * first, the handlers of a later batch are appended after them.
   */
  lemma {:induction false} IntentsFollowLoadOrder(a: seq<Spawned>, b: seq<Spawned>)
    ensures IntentHandlers(a + b) == IntentHandlers(a) + IntentHandlers(b)
    decreases |b|
  {
    if b == [] {
      assert a + b == a;
    } else {
      assert (a + b)[..|a + b| - 1] == a + b[..|b| - 1];
      IntentsFollowLoadOrder(a, b[..|b| - 1]);
    }
  }

  /** The same order for the moveEvent handlers. */
  lemma {:induction false} EventsFollowLoadOrder(a: seq<Spawned>, b: seq<Spawned>)
    ensures EventHandlers(a + b) == EventHandlers(a) + EventHandlers(b)
    decreases |b|
  {
    if b == [] {
      assert a + b == a;
    } else {
      assert (a + b)[..|a + b| - 1] == a + b[..|b| - 1];
      EventsFollowLoadOrder(a, b[..|b| - 1]);
    }
  }

  /** Every registered handler belongs to a loaded entity of a listening kind. */
  lemma {:induction false} HandlersBelongToListeners(es: seq<Spawned>)
    ensures forall h :: h in IntentHandlers(es) ==> exists i :: 0 <= i < |es| && es[i].serial == h.owner && ListensToIntents(es[i].kind)
    ensures forall h :: h in EventHandlers(es) ==> exists i :: 0 <= i < |es| && es[i].serial == h.owner && ListensToEvents(es[i].kind)
    decreases |es|
  {
    if es != [] {
      var last := |es| - 1;
      HandlersBelongToListeners(es[..last]);
      forall h | h in IntentHandlers(es)
        ensures exists i :: 0 <= i < |es| && es[i].serial == h.owner && ListensToIntents(es[i].kind)
      {
        if h in IntentHandlers(es[..last]) {
          var i :| 0 <= i < |es[..last]| && es[..last][i].serial == h.owner && ListensToIntents(es[..last][i].kind);
          assert es[i] == es[..last][i];
        } else {
          assert h in IntentRegistration(es[last]);
        }
      }
      forall h | h in EventHandlers(es)
        ensures exists i :: 0 <= i < |es| && es[i].serial == h.owner && ListensToEvents(es[i].kind)
      {
        if h in EventHandlers(es[..last]) {
          var i :| 0 <= i < |es[..last]| && es[..last][i].serial == h.owner && ListensToEvents(es[..last][i].kind);
          assert es[i] == es[..last][i];
        } else {
          assert h in EventRegistration(es[last]);
        }
      }
    }
  }
}
