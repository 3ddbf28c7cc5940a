/**
 * The position record of an entity (unsw/dungeon/entity/Entity.java): two independent
 * observable integer cells x and y, and a level field that the constructor never sets.
 */
module EntityPosition {
  import opened Optional
  import opened Meta

  class Entity {
    /** The x and y property cells. */
    var x: int
    var y: int
    /** entityLevel; None stands for the Java null it keeps, since nothing here assigns it. */
    var entityLevel: Option<EntityLevel>

    /** An entity positioned in square (x0, y0). */
    constructor (x0: int, y0: int)
      ensures x == x0 && y == y0
      ensures entityLevel == None
    {
      x, y := x0, y0;
      entityLevel := None;
    }

    /** x().set(v): writes the x cell only. */
    method SetX(v: int)
      modifies this`x
      ensures x == v
      ensures y == old(y) && entityLevel == old(entityLevel)
    {
      x := v;
    }

    /** y().set(v): writes the y cell only. */
    method SetY(v: int)
      modifies this`y
      ensures y == v
      ensures x == old(x) && entityLevel == old(entityLevel)
    {
      y := v;
    }

    function GetX(): (r: int)
      reads this
      ensures r == x
    {
      x
    }

    function GetY(): (r: int)
      reads this
      ensures r == y
    {
      y
    }

    function GetEntityLevel(): (r: Option<EntityLevel>)
      reads this
      ensures r == entityLevel
    {
      entityLevel
    }
  }

  /** A fresh entity still reports no level: the constructor leaves entityLevel unassigned. */
  method NewEntityHasNoLevel(x0: int, y0: int) returns (level: Option<EntityLevel>, x: int, y: int)
    ensures level == None && x == x0 && y == y0
  {
    var e := new Entity(x0, y0);
    level := e.GetEntityLevel();
    x := e.GetX();
    y := e.GetY();
  }
}
