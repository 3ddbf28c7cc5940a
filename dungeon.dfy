/**
 * The Dungeon the loader fills. Dungeon.java is not part of this model: only the state that
 * DungeonLoader and the goals read or write is kept (its size, its single player and the
 * list addEntity appends to).
 */
module Dungeons {
  import opened Meta
  import opened Collaborators

  class Dungeon {
    const width: int
    const height: int
    const player: Player
    var entities: seq<Spawned>

    /** new Dungeon(width, height) followed by setPlayer(new Player(dungeon, 0, 0)). */
    constructor (w: int, h: int)
      ensures width == w && height == h && entities == []
      ensures fresh(player) && player.x == 0 && player.y == 0 && player.alive
      ensures player.inventory == [] && player.moveIntent == [] && player.moveEvent == []
    {
      width, height := w, h;
      player := new Player(0, 0);
      entities := [];
    }

    method AddEntity(e: Spawned)
      modifies this`entities
      ensures entities == old(entities) + [e]
    {
      entities := entities + [e];
    }
  }
}
