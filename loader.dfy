/**
 * DungeonLoader (unsw/dungeon/DungeonLoader.java): turns the "entities" array of a level
 * description into entity objects, announcing each to every LoaderHook through a
 * LoaderComposite, and finally announcing postLoad.
 *
 * A record is the JSON object of one entity, with each field present or absent. Reading an
 * absent required field (type, x, y; id of a door, key or portal; orientation of a saw)
 * throws a JSONException, which load does not catch: the load stops there. An unknown type
 * throws an Error, which load catches: that record is skipped and loading goes on.
 */
module Loader {
  import opened Optional
  import opened Meta
  import opened Collaborators
  import opened Dungeons
  import GameHooks

  /** One element of the "entities" array. */
  datatype Record = Record(
    typeName: Option<string>, x: Option<int>, y: Option<int>,
    id: Option<int>, activated: Option<bool>, orientation: Option<string>)

  /** What loadEntity does with one record. */
  datatype Decoded = Built(entity: Spawned) | Skipped(typeName: string) | Thrown

  /** The "type" string the loader accepts for each kind. */
  function KindName(k: Kind): string
  {
    match k
    case PlayerKind => "player"
    case EnemyKind => "enemy"
    case WallKind => "wall"
    case ExitKind => "exit"
    case SwitchKind => "switch"
    case BoulderKind => "boulder"
    case DoorKind => "door"
    case TreasureKind => "treasure"
    case KeyKind => "key"
    case SwordKind => "sword"
    case PotionKind => "invincibility"
    case PortalKind => "portal"
    case SawKind => "saw"
  }

  /** The switch of loadEntity on the type string: None is the default branch. */
  function KindOf(t: string): (r: Option<Kind>)
    ensures r.Some? ==> KindName(r.value) == t
    ensures r.None? ==> forall k: Kind :: KindName(k) != t
  {
    if t == "player" then Some(PlayerKind)
    else if t == "enemy" then Some(EnemyKind)
    else if t == "wall" then Some(WallKind)
    else if t == "exit" then Some(ExitKind)
    else if t == "switch" then Some(SwitchKind)
    else if t == "boulder" then Some(BoulderKind)
    else if t == "door" then Some(DoorKind)
    else if t == "treasure" then Some(TreasureKind)
    else if t == "key" then Some(KeyKind)
    else if t == "sword" then Some(SwordKind)
    else if t == "invincibility" then Some(PotionKind)
    else if t == "portal" then Some(PortalKind)
    else if t == "saw" then Some(SawKind)
    else None
  }

  /** Every kind the loader builds is reached by exactly its own type string. */
  lemma KindNamesRoundTrip(k: Kind)
    ensures KindOf(KindName(k)) == Some(k)
  {
  }

  /** Kinds whose record must carry an "id" (read with getInt). */
  predicate NeedsId(k: Kind)
  {
    k == DoorKind || k == KeyKind || k == PortalKind
  }

  /** The id an entity of kind k gets: optInt("id", -1) for a switch, getInt("id") when required. */
  function IdOf(k: Kind, r: Record): Option<int>
  {
    if k == SwitchKind then Some(if r.id.Some? then r.id.value else -1)
    else if NeedsId(k) then r.id
    else None
  }

  /** A portal's activation: optBoolean("activated", true). */
  function ActivatedOf(k: Kind, r: Record): Option<bool>
  {
    if k == PortalKind then Some(if r.activated.Some? then r.activated.value else true) else None
  }

  /**
   * The records on which loadEntity throws a JSONException: one without "type", "x" or "y",
   * a door, key or portal without "id", or a saw without "orientation".
   */
  predicate Throws(r: Record)
  {
    r.typeName.None? || r.x.None? || r.y.None? ||
    (KindOf(r.typeName.value).Some? && NeedsId(KindOf(r.typeName.value).value) && r.id.None?) ||
    (r.typeName.value == "saw" && r.orientation.None?)
  }

  /** What loadEntity makes of record r, the entity built from it getting the given serial. */
  function Decode(r: Record, serial: nat): (d: Decoded)
    requires serial > 0
    ensures d.Thrown? <==> Throws(r)
    ensures d.Skipped? <==> !d.Thrown? && KindOf(r.typeName.value).None?
    ensures d.Skipped? ==> d.typeName == r.typeName.value
    ensures d.Built? ==>
      var e := d.entity;
      Some(e.kind) == KindOf(r.typeName.value) && e.x == r.x.value && e.y == r.y.value &&
      (e.kind == PlayerKind <==> e.serial == 0) && (e.kind != PlayerKind ==> e.serial == serial)
    ensures d.Built? && d.entity.kind == SwitchKind ==>
      d.entity.id == Some(if r.id.Some? then r.id.value else -1)
    ensures d.Built? && NeedsId(d.entity.kind) ==> d.entity.id == r.id
    ensures d.Built? && d.entity.kind == PortalKind ==>
      d.entity.activated == Some(if r.activated.Some? then r.activated.value else true)
    ensures d.Built? && d.entity.kind == SawKind ==> d.entity.orientation == r.orientation
    ensures d.Built? && d.entity.kind != PortalKind ==> d.entity.activated == None
  {
    if r.typeName.None? || r.x.None? || r.y.None? then Thrown
    else
      match KindOf(r.typeName.value)
      case None => Skipped(r.typeName.value)
      case Some(k) =>
        if NeedsId(k) && r.id.None? then Thrown
        else if k == SawKind && r.orientation.None? then Thrown
        else
          Built(Spawned(
            if k == PlayerKind then 0 else serial, k, r.x.value, r.y.value,
            IdOf(k, r), ActivatedOf(k, r), if k == SawKind then r.orientation else None))
  }

  /** The outcome of loading the records rs in order: the entities added and whether a throw stopped it. */
  datatype Plan = Plan(entities: seq<Spawned>, thrown: bool)

  /** Records are processed left to right; record i (from 0) builds serial i + 1. */
  function PlanOf(rs: seq<Record>): Plan
  {
    if rs == [] then Plan([], false)
    else
      var p := PlanOf(rs[..|rs| - 1]);
      if p.thrown then p
      else
        match Decode(rs[|rs| - 1], |rs|)
        case Built(e) => Plan(p.entities + [e], false)
        case Skipped(_) => p
        case Thrown => Plan(p.entities, true)
  }

  /** Once a record has thrown, later records change nothing: the load has stopped. */
  lemma {:induction false} ThrowIsFinal(rs: seq<Record>, n: nat)
    requires n <= |rs| && PlanOf(rs[..n]).thrown
    ensures PlanOf(rs) == PlanOf(rs[..n])
    decreases |rs|
  {
    if n < |rs| {
      assert rs[..|rs| - 1][..n] == rs[..n];
      ThrowIsFinal(rs[..|rs| - 1], n);
    } else {
      assert rs[..n] == rs;
    }
  }

  /** A load is stopped after rs when it was stopped before rs' last record or that record throws. */
  lemma ThrownStep(rs: seq<Record>)
    requires rs != []
    ensures PlanOf(rs).thrown <==> PlanOf(rs[..|rs| - 1]).thrown || Throws(rs[|rs| - 1])
  {
  }

  /** The load stops exactly when some record throws. */
  lemma {:induction false} ThrownIffSomeRecordThrows(rs: seq<Record>)
    ensures PlanOf(rs).thrown <==> exists i :: 0 <= i < |rs| && Throws(rs[i])
    decreases |rs|
  {
    if rs != [] {
      var front := rs[..|rs| - 1];
      ThrownIffSomeRecordThrows(front);
      ThrownStep(rs);
      var last := |rs| - 1;
      if PlanOf(front).thrown {
        var i :| 0 <= i < |front| && Throws(front[i]);
        assert rs[i] == front[i];
      } else if Throws(rs[last]) {
        assert 0 <= last < |rs|;
      } else {
        forall i | 0 <= i < |rs|
          ensures !Throws(rs[i])
        {
          if i < last {
            assert rs[i] == front[i];
          }
        }
      }
    }
  }

  /** Every entity the load adds was built from one of the records. */
  lemma {:induction false} EntitiesComeFromRecords(rs: seq<Record>)
    ensures forall e :: e in PlanOf(rs).entities ==>
      exists i :: 0 <= i < |rs| && Decode(rs[i], i + 1) == Built(e)
    decreases |rs|
  {
    if rs != [] {
      var front := rs[..|rs| - 1];
      EntitiesComeFromRecords(front);
      forall e | e in PlanOf(rs).entities
        ensures exists i :: 0 <= i < |rs| && Decode(rs[i], i + 1) == Built(e)
      {
        if e in PlanOf(front).entities {
          var i :| 0 <= i < |front| && Decode(front[i], i + 1) == Built(e);
          assert rs[i] == front[i];
        } else {
          assert Decode(rs[|rs| - 1], |rs|) == Built(e);
        }
      }
    }
  }

  /**
   * A load no record stops keeps every entity built: a skipped record (unknown type) costs
   * only itself.
   */
  lemma {:induction false} CompletedLoadKeepsEveryBuiltEntity(rs: seq<Record>)
    ensures !PlanOf(rs).thrown ==>
      forall i :: 0 <= i < |rs| && Decode(rs[i], i + 1).Built? ==> Decode(rs[i], i + 1).entity in PlanOf(rs).entities
    decreases |rs|
  {
    if rs != [] && !PlanOf(rs).thrown {
      var front := rs[..|rs| - 1];
      CompletedLoadKeepsEveryBuiltEntity(front);
      forall i | 0 <= i < |rs| && Decode(rs[i], i + 1).Built?
        ensures Decode(rs[i], i + 1).entity in PlanOf(rs).entities
      {
        if i < |front| {
          assert rs[i] == front[i];
        }
      }
    }
  }

  /**
   * Each record builds a new object, so every entity but the player appears once, in
   * record order, with a serial within the records read; the player (serial 0) is the one
   * object a second "player" record adds again.
   */
  lemma {:induction false} EntitiesAreDistinctObjects(rs: seq<Record>)
    ensures forall i :: 0 <= i < |PlanOf(rs).entities| ==> PlanOf(rs).entities[i].serial <= |rs|
    ensures forall i, j :: 0 <= i < j < |PlanOf(rs).entities| && PlanOf(rs).entities[j].kind != PlayerKind ==>
      PlanOf(rs).entities[i].serial < PlanOf(rs).entities[j].serial
    decreases |rs|
  {
    if rs != [] {
      var front := rs[..|rs| - 1];
      EntitiesAreDistinctObjects(front);
    }
  }

  /** Which LoaderHook implementation a hook is: GameHooks, or another (the UI's) whose effects are not modelled. */
  datatype HookKind = GameRules | OtherHook

  class LoaderHook {
    const kind: HookKind

    constructor (k: HookKind)
      ensures kind == k
    {
      kind := k;
    }
  }

  /** What a hook was told. */
  datatype Notice = Loaded(entity: Spawned) | LoadDone

  /** One call of a hook's onLoad or postLoad. */
  datatype Call = Call(hook: LoaderHook, notice: Notice)

  /** The calls a fan-out over hooks makes: one per hook, in list order. */
  function FanOut(hooks: seq<LoaderHook>, n: Notice): (r: seq<Call>)
    ensures |r| == |hooks|
    ensures forall i :: 0 <= i < |hooks| ==> r[i] == Call(hooks[i], n)
  {
    if hooks == [] then [] else FanOut(hooks[..|hooks| - 1], n) + [Call(hooks[|hooks| - 1], n)]
  }

  /** The number of GameHooks entries in a hook list. */
  function RulesCount(hooks: seq<LoaderHook>): nat
  {
    if hooks == [] then 0
    else RulesCount(hooks[..|hooks| - 1]) + if hooks[|hooks| - 1].kind == GameRules then 1 else 0
  }

  /** One more hook in a prefix: its call is appended to the fan-out. */
  lemma ToldOneMore(hooks: seq<LoaderHook>, i: nat, n: Notice, before: seq<Call>)
    requires i < |hooks|
    ensures before + FanOut(hooks[..i + 1], n) == before + FanOut(hooks[..i], n) + [Call(hooks[i], n)]
  {
    assert hooks[..i + 1][..i] == hooks[..i];
  }

  /** One more hook in a prefix: a GameHooks entry adds one more copy of the registrations. */
  lemma RegisteredOneMore<T>(hooks: seq<LoaderHook>, i: nat, before: seq<T>, s: seq<T>)
    requires i < |hooks|
    ensures before + Repeat(s, RulesCount(hooks[..i + 1])) ==
      before + Repeat(s, RulesCount(hooks[..i])) + if hooks[i].kind == GameRules then s else []
  {
    assert hooks[..i + 1][..i] == hooks[..i];
  }

  /** n copies of s, one after the other. */
  function Repeat<T>(s: seq<T>, n: nat): (r: seq<T>)
    ensures |r| == n * |s|
  {
    if n == 0 then [] else Repeat(s, n - 1) + s
  }

  /** addHook: a hook already in the list is not added again. */
  function WithHook(hooks: seq<LoaderHook>, h: LoaderHook): seq<LoaderHook>
  {
    if h in hooks then hooks else hooks + [h]
  }

  predicate NoDuplicates<T(==)>(s: seq<T>)
  {
    forall i, j :: 0 <= i < j < |s| ==> s[i] != s[j]
  }

  /** addHook keeps the existing hooks in order, makes h present, and keeps a duplicate-free list so. */
  lemma WithHookAddsOnce(hooks: seq<LoaderHook>, h: LoaderHook)
    ensures h in WithHook(hooks, h)
    ensures WithHook(hooks, h)[..|hooks|] == hooks
    ensures |WithHook(hooks, h)| == |hooks| + (if h in hooks then 0 else 1)
    ensures NoDuplicates(hooks) ==> NoDuplicates(WithHook(hooks, h))
    ensures WithHook(WithHook(hooks, h), h) == WithHook(hooks, h)
  {
  }

  /**
   * LoaderComposite: forwards every notice to its hooks in list order. `calls` records the
   * notices forwarded, for the contracts.
   */
  class LoaderComposite {
    var hooks: seq<LoaderHook>
    ghost var calls: seq<Call>

    /** The varargs constructor copies the given hooks in order, duplicates included. */
    constructor (given: seq<LoaderHook>)
      ensures hooks == given && calls == []
    {
      hooks := [];
      calls := [];
      new;
      var i := 0;
      while i < |given|
        invariant 0 <= i <= |given|
        invariant hooks == given[..i] && calls == []
      {
        hooks := hooks + [given[i]];
        i := i + 1;
      }
    }

    method AddHook(h: LoaderHook)
      modifies this`hooks
      ensures hooks == WithHook(old(hooks), h)
    {
      if h in hooks {
        return;
      }
      hooks := hooks + [h];
    }

    /**
     * onLoad(e): every hook is told, in list order; each GameHooks entry registers e's
     * handlers on the dungeon's player, so a GameHooks listed twice registers them twice.
     */
    method OnLoad(e: Spawned, player: Player)
      modifies this`calls, player`moveIntent, player`moveEvent
      ensures calls == old(calls) + FanOut(hooks, Loaded(e))
      ensures player.moveIntent == old(player.moveIntent) + Repeat(GameHooks.IntentRegistration(e), RulesCount(hooks))
      ensures player.moveEvent == old(player.moveEvent) + Repeat(GameHooks.EventRegistration(e), RulesCount(hooks))
    {
      ghost var calls0, intents0, events0 := calls, player.moveIntent, player.moveEvent;
      var i := 0;
      while i < |hooks|
        invariant 0 <= i <= |hooks|
        invariant calls == calls0 + FanOut(hooks[..i], Loaded(e))
        invariant player.moveIntent == intents0 + Repeat(GameHooks.IntentRegistration(e), RulesCount(hooks[..i]))
        invariant player.moveEvent == events0 + Repeat(GameHooks.EventRegistration(e), RulesCount(hooks[..i]))
      {
        ToldOneMore(hooks, i, Loaded(e), calls0);
        RegisteredOneMore(hooks, i, intents0, GameHooks.IntentRegistration(e));
        RegisteredOneMore(hooks, i, events0, GameHooks.EventRegistration(e));
        var hook := hooks[i];
        calls := calls + [Call(hook, Loaded(e))];
        if hook.kind == GameRules {
          GameHooks.OnLoad(player, e);
        }
        i := i + 1;
      }
      assert hooks[..i] == hooks;
    }

    /** postLoad: every hook is told, in list order (GameHooks only prints). */
    method PostLoad()
      modifies this`calls
      ensures calls == old(calls) + FanOut(hooks, LoadDone)
    {
      var i := 0;
      while i < |hooks|
        invariant 0 <= i <= |hooks|
        invariant calls == old(calls) + FanOut(hooks[..i], LoadDone)
      {
        ToldOneMore(hooks, i, LoadDone, old(calls));
        calls := calls + [Call(hooks[i], LoadDone)];
        i := i + 1;
      }
      assert hooks[..i] == hooks;
    }
  }

  /** The onLoad calls made while the entities es were loaded in order. */
  function LoadCalls(hooks: seq<LoaderHook>, es: seq<Spawned>): seq<Call>
  {
    if es == [] then [] else LoadCalls(hooks, es[..|es| - 1]) + FanOut(hooks, Loaded(es[|es| - 1]))
  }

  /** The moveIntent handlers n GameHooks register while the entities es load in order. */
  function IntentsFor(es: seq<Spawned>, n: nat): seq<Handler>
  {
    if es == [] then [] else IntentsFor(es[..|es| - 1], n) + Repeat(GameHooks.IntentRegistration(es[|es| - 1]), n)
  }

  /** The moveEvent handlers n GameHooks register while the entities es load in order. */
  function EventsFor(es: seq<Spawned>, n: nat): seq<Handler>
  {
    if es == [] then [] else EventsFor(es[..|es| - 1], n) + Repeat(GameHooks.EventRegistration(es[|es| - 1]), n)
  }

  /** With the one GameHooks load adds and no other, the player's lists are exactly GameHooks' registrations. */
  lemma {:induction false} SingleRulesHookRegistersOnce(es: seq<Spawned>)
    ensures IntentsFor(es, 1) == GameHooks.IntentHandlers(es)
    ensures EventsFor(es, 1) == GameHooks.EventHandlers(es)
    decreases |es|
  {
    if es != [] {
      SingleRulesHookRegistersOnce(es[..|es| - 1]);
      var last := es[|es| - 1];
      assert Repeat(GameHooks.IntentRegistration(last), 1) == GameHooks.IntentRegistration(last);
      assert Repeat(GameHooks.EventRegistration(last), 1) == GameHooks.EventRegistration(last);
    }
  }

  /** The player's position after loading es: the last "player" record's, or (0, 0). */
  function PlayerPosition(es: seq<Spawned>): (int, int)
  {
    if es == [] then (0, 0)
    else if es[|es| - 1].kind == PlayerKind then (es[|es| - 1].x, es[|es| - 1].y)
    else PlayerPosition(es[..|es| - 1])
  }

  /** One step of the load loop: record i, read after a prefix that did not throw, extends the plan by its outcome. */
  lemma PlanStep(rs: seq<Record>, i: nat)
    requires i < |rs| && !PlanOf(rs[..i]).thrown
    ensures PlanOf(rs[..i + 1]) ==
      match Decode(rs[i], i + 1)
      case Built(e) => Plan(PlanOf(rs[..i]).entities + [e], false)
      case Skipped(_) => PlanOf(rs[..i])
      case Thrown => Plan(PlanOf(rs[..i]).entities, true)
  {
    assert rs[..i + 1][..i] == rs[..i];
    assert rs[..i + 1][i] == rs[i];
  }

  /** Adding one entity extends the hook calls, the registrations and the player's position by that entity alone. */
  lemma AddEntityStep(hooks: seq<LoaderHook>, es: seq<Spawned>, e: Spawned, n: nat)
    ensures LoadCalls(hooks, es + [e]) == LoadCalls(hooks, es) + FanOut(hooks, Loaded(e))
    ensures IntentsFor(es + [e], n) == IntentsFor(es, n) + Repeat(GameHooks.IntentRegistration(e), n)
    ensures EventsFor(es + [e], n) == EventsFor(es, n) + Repeat(GameHooks.EventRegistration(e), n)
    ensures PlayerPosition(es + [e]) == if e.kind == PlayerKind then (e.x, e.y) else PlayerPosition(es)
  {
    assert (es + [e])[..|es|] == es;
  }

  /**
   * loadEntity: reads the record, and for a record that builds an entity places the player
   * (for "player") and tells every hook; nothing happens for a skipped or a throwing record.
   */
  method LoadEntity(dungeon: Dungeon, r: Record, serial: nat, loaders: LoaderComposite)
    returns (decoded: Decoded)
    requires serial > 0
    modifies dungeon.player`x, dungeon.player`y, dungeon.player`moveIntent, dungeon.player`moveEvent, loaders`calls
    ensures decoded == Decode(r, serial)
    ensures decoded.Built? ==>
      var e := decoded.entity;
      loaders.calls == old(loaders.calls) + FanOut(loaders.hooks, Loaded(e)) &&
      dungeon.player.moveIntent == old(dungeon.player.moveIntent) + Repeat(GameHooks.IntentRegistration(e), RulesCount(loaders.hooks)) &&
      dungeon.player.moveEvent == old(dungeon.player.moveEvent) + Repeat(GameHooks.EventRegistration(e), RulesCount(loaders.hooks)) &&
      (dungeon.player.x, dungeon.player.y) == (if e.kind == PlayerKind then (e.x, e.y) else old((dungeon.player.x, dungeon.player.y)))
    ensures !decoded.Built? ==>
      unchanged(loaders) && unchanged(dungeon.player)
  {
    decoded := Decode(r, serial);
    if decoded.Built? {
      var e := decoded.entity;
      if e.kind == PlayerKind {
        dungeon.player.x := e.x;
        dungeon.player.y := e.y;
      }
      loaders.OnLoad(e, dungeon.player);
    }
  }

  /**
   * The state of a load after the first n records, on values: the entities are those of
   * the records' plan, every hook has been told of each of them in order, the player's
   * lists hold their registrations and the player stands where the last "player" record
   * put it.
   */
  ghost predicate Reached(rs: seq<Record>, n: nat, thrown: bool, hooks: seq<LoaderHook>, es: seq<Spawned>,
                          calls: seq<Call>, intents: seq<Handler>, events: seq<Handler>, pos: (int, int))
    requires n <= |rs|
  {
    && PlanOf(rs[..n]) == Plan(es, thrown)
    && calls == LoadCalls(hooks, es)
    && intents == IntentsFor(es, RulesCount(hooks))
    && events == EventsFor(es, RulesCount(hooks))
    && pos == PlayerPosition(es)
  }

  /** A record that builds an entity appends it and its notices and registrations. */
  lemma BuiltReaches(rs: seq<Record>, i: nat, hooks: seq<LoaderHook>, es: seq<Spawned>, calls: seq<Call>,
                     intents: seq<Handler>, events: seq<Handler>, pos: (int, int), e: Spawned)
    requires i < |rs| && Reached(rs, i, false, hooks, es, calls, intents, events, pos)
    requires Decode(rs[i], i + 1) == Built(e)
    ensures Reached(rs, i + 1, false, hooks, es + [e], calls + FanOut(hooks, Loaded(e)),
                    intents + Repeat(GameHooks.IntentRegistration(e), RulesCount(hooks)),
                    events + Repeat(GameHooks.EventRegistration(e), RulesCount(hooks)),
                    if e.kind == PlayerKind then (e.x, e.y) else pos)
  {
    PlanStep(rs, i);
    AddEntityStep(hooks, es, e, RulesCount(hooks));
  }

  /** A record that is skipped or throws leaves everything as it was; only a throw is final. */
  lemma UnbuiltReaches(rs: seq<Record>, i: nat, hooks: seq<LoaderHook>, es: seq<Spawned>, calls: seq<Call>,
                       intents: seq<Handler>, events: seq<Handler>, pos: (int, int))
    requires i < |rs| && Reached(rs, i, false, hooks, es, calls, intents, events, pos)
    requires !Decode(rs[i], i + 1).Built?
    ensures Reached(rs, i + 1, Decode(rs[i], i + 1).Thrown?, hooks, es, calls, intents, events, pos)
  {
    PlanStep(rs, i);
  }

  /** Reached, read off the dungeon, its player and the composite loader. */
  ghost predicate LoadedSoFar(dungeon: Dungeon, composite: LoaderComposite, rs: seq<Record>, n: nat, thrown: bool)
    requires n <= |rs|
    reads dungeon, dungeon.player, composite
  {
    && Reached(rs, n, thrown, composite.hooks, dungeon.entities, composite.calls,
               dungeon.player.moveIntent, dungeon.player.moveEvent, (dungeon.player.x, dungeon.player.y))
    && dungeon.player.alive && dungeon.player.inventory == []
  }

  /**
   * One pass of load's loop: loadEntity on record i and, when it builds an entity,
   * addEntity. The load state after i records becomes the state after i + 1; `thrown`
   * reports a JSONException, which ends the load.
   */
  method LoadRecord(dungeon: Dungeon, composite: LoaderComposite, rs: seq<Record>, i: nat) returns (thrown: bool)
    requires i < |rs| && LoadedSoFar(dungeon, composite, rs, i, false)
    modifies dungeon`entities, dungeon.player`x, dungeon.player`y, dungeon.player`moveIntent, dungeon.player`moveEvent
    modifies composite`calls
    ensures LoadedSoFar(dungeon, composite, rs, i + 1, thrown)
    ensures thrown <==> Decode(rs[i], i + 1).Thrown?
  {
    ghost var es, calls := dungeon.entities, composite.calls;
    ghost var intents, events := dungeon.player.moveIntent, dungeon.player.moveEvent;
    ghost var pos := (dungeon.player.x, dungeon.player.y);
    var d := LoadEntity(dungeon, rs[i], i + 1, composite);
    thrown := d.Thrown?;
    if d.Built? {
      BuiltReaches(rs, i, composite.hooks, es, calls, intents, events, pos, d.entity);
      dungeon.AddEntity(d.entity);
    } else {
      UnbuiltReaches(rs, i, composite.hooks, es, calls, intents, events, pos);
    }
  }

  /**
   * load: builds the dungeon and its player at (0, 0), copies the given hooks and adds one
   * GameHooks, then loads the records in order, adding each built entity, and tells every
   * hook postLoad; a record that throws stops the load before postLoad (completed is false).
   * In Java that JSONException escapes load, so no caller receives the partly filled dungeon;
   * it is returned here only so that the contract can say what was done before the throw.
   */
  method Load(width: int, height: int, records: seq<Record>, hooks: seq<LoaderHook>)
    returns (dungeon: Dungeon, completed: bool, ghost loaders: LoaderComposite)
    ensures fresh(dungeon) && fresh(dungeon.player) && fresh(loaders)
    ensures dungeon.width == width && dungeon.height == height
    ensures completed <==> !PlanOf(records).thrown
    ensures dungeon.entities == PlanOf(records).entities
    ensures |loaders.hooks| == |hooks| + 1 && loaders.hooks[..|hooks|] == hooks
    ensures fresh(loaders.hooks[|hooks|]) && loaders.hooks[|hooks|].kind == GameRules
    ensures RulesCount(loaders.hooks) == RulesCount(hooks) + 1
    ensures loaders.calls ==
      LoadCalls(loaders.hooks, dungeon.entities) + (if completed then FanOut(loaders.hooks, LoadDone) else [])
    ensures dungeon.player.moveIntent == IntentsFor(dungeon.entities, RulesCount(loaders.hooks))
    ensures dungeon.player.moveEvent == EventsFor(dungeon.entities, RulesCount(loaders.hooks))
    ensures (dungeon.player.x, dungeon.player.y) == PlayerPosition(dungeon.entities)
    ensures dungeon.player.alive && dungeon.player.inventory == []
  {
    dungeon := new Dungeon(width, height);
    var composite := new LoaderComposite(hooks);
    var rules := new LoaderHook(GameRules);
    composite.AddHook(rules);
    assert composite.hooks == hooks + [rules];
    assert (hooks + [rules])[..|hooks|] == hooks;
    loaders := composite;

    completed := true;
    var i := 0;
    assert records[..0] == [];
    while i < |records| && completed
      invariant 0 <= i <= |records|
      invariant composite.hooks == hooks + [rules]
      invariant LoadedSoFar(dungeon, composite, records, i, !completed)
    {
      var thrown := LoadRecord(dungeon, composite, records, i);
      completed := !thrown;
      i := i + 1;
    }
    if completed {
      assert records[..i] == records;
      composite.PostLoad();
    } else {
      ThrowIsFinal(records, i);
    }
    assert RulesCount(hooks + [rules]) == RulesCount(hooks) + 1 by {
      assert (hooks + [rules])[..|hooks + [rules]| - 1] == hooks;
    }
  }
}
