/**
 * The movement rules of a movable entity, as values: the position write of setXY, one move
 * (intent, blocking check, position write), and the enemy's policy of trying planned steps
 * in order until one succeeds.
 */
module Movement {
  import opened Events
  import opened Collaborators

  /** The four unit steps: moveLeft, moveRight, moveUp (y - 1) and moveDown (y + 1). */
  datatype Dir = Left | Right | Up | Down {
    function DX(): int
    {
      match this
      case Left => -1
      case Right => 1
      case _ => 0
    }

    function DY(): int
    {
      match this
      case Up => -1
      case Down => 1
      case _ => 0
    }

    predicate Horizontal()
    {
      Left? || Right?
    }

    function Reverse(): Dir
    {
      match this
      case Left => Right
      case Right => Left
      case Up => Down
      case Down => Up
    }
  }

  /** The position of a movable entity and every move event it has emitted, oldest first. */
  datatype Track = Track(x: int, y: int, events: seq<LocationChanged>)

  /**
   * Enemy.setXY: a target the dungeon calls invalid is ignored; otherwise the position
   * becomes the target and one event carrying (old, new) is emitted.
   */
  function SetXY(t: Track, nx: int, ny: int, valid: (int, int) -> bool): (r: Track)
    ensures valid(t.x, t.y) ==> valid(r.x, r.y)
    ensures r == t || (r.x == nx && r.y == ny && r.events == t.events + [LocationChanged(t.x, t.y, nx, ny)])
    ensures !valid(nx, ny) ==> r == t
    ensures valid(nx, ny) ==> r == Track(nx, ny, t.events + [LocationChanged(t.x, t.y, nx, ny)])
  {
    if !valid(nx, ny) then t
    else Track(nx, ny, t.events + [LocationChanged(t.x, t.y, nx, ny)])
  }

  /**
   * Enemy.move(dx, dy): an objection from moveIntent or a blocked target refuses the move
   * and changes nothing; otherwise setXY is called on the target and the move succeeds.
   */
  function Step(t: Track, dx: int, dy: int, w: Surroundings): (bool, Track)
  {
    var nx, ny := t.x + dx, t.y + dy;
    if !w.moveIntent(LocationChanged(t.x, t.y, nx, ny)) then (false, t)
    else if w.isPositionBlocked(nx, ny) then (false, t)
    else (true, SetXY(t, nx, ny, w.positionIsValid))
  }

  /** Whether the unit step in direction d succeeds from t. */
  predicate Succeeds(t: Track, d: Dir, w: Surroundings)
  {
    Step(t, d.DX(), d.DY(), w).0
  }

  /** Where the unit step in direction d leaves the entity when it succeeds. */
  function Moved(t: Track, d: Dir, w: Surroundings): Track
  {
    SetXY(t, t.x + d.DX(), t.y + d.DY(), w.positionIsValid)
  }

  /**
   * Try the steps of the plan in order and stop at the first that succeeds; a refused step
   * leaves the entity where it was, so every attempt starts from t.
   */
  function Attempt(t: Track, plan: seq<Dir>, w: Surroundings): Track
    decreases |plan|
  {
    if plan == [] then t
    else
      var (ok, t') := Step(t, plan[0].DX(), plan[0].DY(), w);
      if ok then t' else Attempt(t, plan[1..], w)
  }

  /** One unfolding of Attempt on a plan that starts with step d. */
  lemma AttemptFirst(t: Track, d: Dir, rest: seq<Dir>, w: Surroundings)
    ensures Attempt(t, [d] + rest, w) == Step(t, d.DX(), d.DY(), w).1 || Attempt(t, [d] + rest, w) == Attempt(t, rest, w)
    ensures Step(t, d.DX(), d.DY(), w).0 ==> Attempt(t, [d] + rest, w) == Step(t, d.DX(), d.DY(), w).1
    ensures !Step(t, d.DX(), d.DY(), w).0 ==> Attempt(t, [d] + rest, w) == Attempt(t, rest, w)
  {
    assert ([d] + rest)[1..] == rest;
  }

  /** Whether step d brings the entity closer to a target at displacement (dX, dY). */
  predicate Approaches(d: Dir, dX: int, dY: int)
  {
    match d
    case Right => dX > 0
    case Left => dX < 0
    case Down => dY > 0
    case Up => dY < 0
  }

  /**
   * The roam plan for displacement (dX, dY) from the enemy to the player: one horizontal
   * step toward the player if dX != 0, then one vertical step toward the player if dY != 0.
   */
  function Toward(dX: int, dY: int): (plan: seq<Dir>)
    ensures |plan| == (if dX != 0 then 1 else 0) + (if dY != 0 then 1 else 0)
    ensures forall i :: 0 <= i < |plan| ==> Approaches(plan[i], dX, dY)
    ensures |plan| == 2 ==> plan[0].Horizontal() && !plan[1].Horizontal()
    ensures dX != 0 ==> plan[0].Horizontal()
  {
    var horizontal := if dX > 0 then [Right] else if dX < 0 then [Left] else [];
    var vertical := if dY > 0 then [Down] else if dY < 0 then [Up] else [];
    horizontal + vertical
  }

  /**
   * The flee plan for displacement (dX, dY): the horizontal step away from the player
   * first, then the vertical step away from the player.
   */
  function Away(dX: int, dY: int): seq<Dir>
  {
    (if dX > 0 then [Left] else if dX < 0 then [Right] else [])
    + (if dY > 0 then [Up] else if dY < 0 then [Down] else [])
  }

  /** Fleeing mirrors roaming: the flee plan is the roam plan with every direction reversed. */
  lemma AwayReversesToward(dX: int, dY: int)
    ensures Away(dX, dY) == Toward(-dX, -dY)
    ensures |Away(dX, dY)| == |Toward(dX, dY)|
    ensures forall i :: 0 <= i < |Away(dX, dY)| ==> Away(dX, dY)[i] == Toward(dX, dY)[i].Reverse()
  {
  }

  /**
   * Attempt takes the first step of the plan that succeeds: either no step succeeds and the
   * entity stays, or step i is the first to succeed and the entity ends where it leads.
   */
  lemma {:induction false} AttemptTakesFirstSuccess(t: Track, plan: seq<Dir>, w: Surroundings)
    ensures
      || ((forall i :: 0 <= i < |plan| ==> !Succeeds(t, plan[i], w)) && Attempt(t, plan, w) == t)
      || (exists i :: 0 <= i < |plan| && Succeeds(t, plan[i], w) && Attempt(t, plan, w) == Moved(t, plan[i], w)
                      && forall j :: 0 <= j < i ==> !Succeeds(t, plan[j], w))
    decreases |plan|
  {
    if plan != [] {
      if Succeeds(t, plan[0], w) {
        assert Attempt(t, plan, w) == Moved(t, plan[0], w);
      } else {
        AttemptTakesFirstSuccess(t, plan[1..], w);
        assert Attempt(t, plan, w) == Attempt(t, plan[1..], w);
        if exists i :: 0 <= i < |plan[1..]| && Succeeds(t, plan[1..][i], w) && Attempt(t, plan[1..], w) == Moved(t, plan[1..][i], w)
                        && forall j :: 0 <= j < i ==> !Succeeds(t, plan[1..][j], w) {
          var i :| 0 <= i < |plan[1..]| && Succeeds(t, plan[1..][i], w) && Attempt(t, plan[1..], w) == Moved(t, plan[1..][i], w)
                   && forall j :: 0 <= j < i ==> !Succeeds(t, plan[1..][j], w);
          assert plan[i + 1] == plan[1..][i];
          forall j | 0 <= j < i + 1 ensures !Succeeds(t, plan[j], w) {
            if j > 0 { assert plan[j] == plan[1..][j - 1]; }
          }
        } else {
          forall i | 0 <= i < |plan| ensures !Succeeds(t, plan[i], w) {
            if i > 0 { assert plan[i] == plan[1..][i - 1]; }
          }
        }
      }
    }
  }

  /** Manhattan distance between two cells. */
  function Dist(x1: int, y1: int, x2: int, y2: int): nat
  {
    (if x1 <= x2 then x2 - x1 else x1 - x2) + (if y1 <= y2 then y2 - y1 else y1 - y2)
  }

  /** A step that approaches the point (px, py) from t brings the entity one cell closer. */
  lemma StepCloser(t: Track, d: Dir, px: int, py: int)
    requires Approaches(d, px - t.x, py - t.y)
    ensures Dist(t.x + d.DX(), t.y + d.DY(), px, py) + 1 == Dist(t.x, t.y, px, py)
  {
  }

  /** A reversed approaching step takes the entity one cell further from (px, py). */
  lemma StepFurther(t: Track, d: Dir, px: int, py: int)
    requires Approaches(d.Reverse(), px - t.x, py - t.y)
    ensures Dist(t.x + d.DX(), t.y + d.DY(), px, py) == Dist(t.x, t.y, px, py) + 1
  {
  }

  /**
   * Roaming never takes the enemy further from the player, and when it changes cell it
   * comes exactly one cell closer. When the enemy is on the player's cell it stays.
   */
  lemma RoamNeverRecedes(t: Track, px: int, py: int, w: Surroundings)
    ensures var r := Attempt(t, Toward(px - t.x, py - t.y), w);
      && Dist(r.x, r.y, px, py) <= Dist(t.x, t.y, px, py)
      && ((r.x, r.y) != (t.x, t.y) ==> Dist(r.x, r.y, px, py) + 1 == Dist(t.x, t.y, px, py))
      && (px == t.x && py == t.y ==> r == t)
  {
    var plan := Toward(px - t.x, py - t.y);
    AttemptTakesFirstSuccess(t, plan, w);
    var r := Attempt(t, plan, w);
    if r != t {
      var i :| 0 <= i < |plan| && Succeeds(t, plan[i], w) && r == Moved(t, plan[i], w);
      if (r.x, r.y) != (t.x, t.y) {
        StepCloser(t, plan[i], px, py);
      }
    }
  }

  /**
   * Fleeing never brings the enemy closer to the player, and when it changes cell it ends
   * exactly one cell further away.
   */
  lemma FleeNeverApproaches(t: Track, px: int, py: int, w: Surroundings)
    ensures var r := Attempt(t, Away(px - t.x, py - t.y), w);
      && Dist(r.x, r.y, px, py) >= Dist(t.x, t.y, px, py)
      && ((r.x, r.y) != (t.x, t.y) ==> Dist(r.x, r.y, px, py) == Dist(t.x, t.y, px, py) + 1)
      && (px == t.x && py == t.y ==> r == t)
  {
    var plan := Away(px - t.x, py - t.y);
    AwayReversesToward(px - t.x, py - t.y);
    AttemptTakesFirstSuccess(t, plan, w);
    var r := Attempt(t, plan, w);
    if r != t {
      var i :| 0 <= i < |plan| && Succeeds(t, plan[i], w) && r == Moved(t, plan[i], w);
      if (r.x, r.y) != (t.x, t.y) {
        assert plan[i].Reverse() == Toward(px - t.x, py - t.y)[i].Reverse().Reverse();
        StepFurther(t, plan[i], px, py);
      }
    }
  }

  /**
   * Intent handler of an enemy or a boulder: no objection unless the player is stepping onto
   * this entity's cell; then the verdict is whatever player.interact(entity) answers.
   */
  function IntentVerdict(x: int, y: int, event: LocationChanged, playerInteracts: bool): (r: bool)
    ensures (x != event.newX || y != event.newY) ==> r
    ensures (x == event.newX && y == event.newY) ==> r == playerInteracts
  {
    if x != event.newX || y != event.newY then true else playerInteracts
  }
}
