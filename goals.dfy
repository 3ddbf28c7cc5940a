/**
 * Goals (unsw/dungeon/goals): a Goal pairs a dungeon with a strategy and asks the strategy
 * whether it is achieved. GoalStrategyExit is achieved when some exit of the dungeon is
 * activated.
 */
module Goals {
  import opened Optional
  import opened Meta
  import opened Dungeons
  import Loader

  /**
   * An exit whose activation flag is set. Exit.java declares no such flag; an exit's flag is
   * the `activated` slot of its entity, unset (None) meaning not activated.
   */
  predicate IsActivatedExit(e: Spawned)
  {
    e.kind == ExitKind && e.activated == Some(true)
  }

  /** What GoalStrategyExit promises: some entity of the dungeon is an activated exit. */
  predicate SomeExitActivated(es: seq<Spawned>)
  {
    exists i :: 0 <= i < |es| && IsActivatedExit(es[i])
  }

  /** Entity.filter(entities, Exit.class): the exits, in dungeon order. */
  function ExitsOf(es: seq<Spawned>): (r: seq<Spawned>)
    ensures forall e :: e in r <==> e in es && e.kind == ExitKind
    ensures |r| <= |es|
  {
    if es == [] then []
    else ExitsOf(es[..|es| - 1]) + (if es[|es| - 1].kind == ExitKind then [es[|es| - 1]] else [])
  }

  /** The strategies a Goal can hold. Only GoalStrategyExit is part of this model; any other carries its answer. */
  datatype GoalStrategy = ExitStrategy | UnseenStrategy(answer: bool)

  /** What achieved() answers for a strategy over the dungeon's entities. */
  predicate Satisfied(s: GoalStrategy, es: seq<Spawned>)
  {
    match s
    case ExitStrategy => SomeExitActivated(es)
    case UnseenStrategy(answer) => answer
  }

  class Goal {
    const dungeon: Dungeon
    const strategy: GoalStrategy

    constructor (d: Dungeon, s: GoalStrategy)
      ensures dungeon == d && strategy == s
    {
      dungeon, strategy := d, s;
    }

    /** achieved(): the strategy's verdict on this goal's dungeon. */
    method Achieved() returns (r: bool)
      ensures r == Satisfied(strategy, dungeon.entities)
    {
      match strategy {
        case ExitStrategy =>
          r := ExitAchieved(this);
        case UnseenStrategy(answer) =>
          r := answer;
      }
    }

    method GetDungeon() returns (d: Dungeon)
      ensures d == dungeon
    {
      d := dungeon;
    }
  }

  /**
   * GoalStrategyExit.achieved: scans the dungeon's exits and answers true at the first
   * activated one, false when there is none.
   */
  method ExitAchieved(g: Goal) returns (r: bool)
    ensures r <==> SomeExitActivated(g.dungeon.entities)
  {
    var dungeon := g.GetDungeon();
    var exits := ExitsOf(dungeon.entities);
    var i := 0;
    while i < |exits|
      invariant 0 <= i <= |exits|
      invariant forall j :: 0 <= j < i ==> exits[j].activated != Some(true)
    {
      if exits[i].activated == Some(true) {
        assert exits[i] in dungeon.entities;
        return true;
      }
      i := i + 1;
    }
    forall k | 0 <= k < |dungeon.entities| && dungeon.entities[k].kind == ExitKind
      ensures !IsActivatedExit(dungeon.entities[k])
    {
      assert dungeon.entities[k] in exits;
    }
    return false;
  }

  /** Entities that are not exits never decide the exit goal. */
  lemma {:induction false} OnlyExitsMatter(es: seq<Spawned>)
    ensures SomeExitActivated(es) <==> SomeExitActivated(ExitsOf(es))
  {
    if SomeExitActivated(es) {
      var i :| 0 <= i < |es| && IsActivatedExit(es[i]);
      assert es[i] in ExitsOf(es);
    }
    if SomeExitActivated(ExitsOf(es)) {
      var i :| 0 <= i < |ExitsOf(es)| && IsActivatedExit(ExitsOf(es)[i]);
      assert ExitsOf(es)[i] in es;
    }
  }

  /** The order of the dungeon's entity list does not change the exit goal. */
  lemma {:induction false} ExitGoalIgnoresOrder(es: seq<Spawned>, other: seq<Spawned>)
    requires multiset(es) == multiset(other)
    ensures SomeExitActivated(es) <==> SomeExitActivated(other)
  {
    if SomeExitActivated(es) {
      var i :| 0 <= i < |es| && IsActivatedExit(es[i]);
      assert es[i] in multiset(other);
      var j :| 0 <= j < |other| && other[j] == es[i];
    }
    if SomeExitActivated(other) {
      var j :| 0 <= j < |other| && IsActivatedExit(other[j]);
      assert other[j] in multiset(es);
      var i :| 0 <= i < |es| && es[i] == other[j];
    }
  }

  /** Adding entities to a dungeon whose exit goal holds keeps it; the goal over two batches is either's. */
  lemma {:induction false} ExitGoalOverBatches(a: seq<Spawned>, b: seq<Spawned>)
    ensures SomeExitActivated(a + b) <==> SomeExitActivated(a) || SomeExitActivated(b)
  {
    if SomeExitActivated(a + b) {
      var i :| 0 <= i < |a + b| && IsActivatedExit((a + b)[i]);
      if i >= |a| {
        assert (a + b)[i] == b[i - |a|];
      }
    }
    if SomeExitActivated(a) {
      var i :| 0 <= i < |a| && IsActivatedExit(a[i]);
      assert (a + b)[i] == a[i];
    }
    if SomeExitActivated(b) {
      var i :| 0 <= i < |b| && IsActivatedExit(b[i]);
      assert (a + b)[|a| + i] == b[i];
    }
  }

  /**
   * The loader never sets an exit's activation (it reads "activated" for portals only), so
   * the exit goal of a freshly loaded dungeon is not achieved.
   */
  lemma FreshlyLoadedExitsAreInactive(rs: seq<Loader.Record>)
    ensures !SomeExitActivated(Loader.PlanOf(rs).entities)
  {
    var es := Loader.PlanOf(rs).entities;
    Loader.EntitiesComeFromRecords(rs);
    forall k | 0 <= k < |es|
      ensures !IsActivatedExit(es[k])
    {
      assert es[k] in es;
      var i :| 0 <= i < |rs| && Loader.Decode(rs[i], i + 1) == Loader.Built(es[k]);
    }
  }
}
