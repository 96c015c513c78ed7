/**
 * The part of the game the mod talks to: tiles with their doodads, the
 * item containers lying on tiles, the set of container views the UI shows,
 * and the effects the mod asks the game to perform (tile and view updates,
 * messages). The game's own simulation is not modelled; each engine call the
 * mod makes is a small, exactly specified state change of `Host`.
 */
module Game {

  datatype Option<+T> = None | Some(value: T)

  /** A tile coordinate. */
  datatype Point = Point(x: int, y: int, z: int)

  /** The offset of one step in a direction. */
  datatype Vector2 = Vector2(x: int, y: int)

  /** The eight facing directions of a creature. */
  datatype Direction = North | NorthEast | East | SouthEast | South | SouthWest | West | NorthWest

  /**
   * Doodad types. Only the four the door closer names are distinguished;
   * every other type of the game is some `OtherDoodad`.
   */
  datatype DoodadType = WoodenDoor | WoodenDoorOpen | WoodenGate | WoodenGateOpen | OtherDoodad(id: nat)

  /** The flags of a doodad's description that the door closer reads. */
  datatype DoodadDescription = DoodadDescription(isDoor: bool, isGate: bool, isClosed: bool)

  type Item = nat

  /**
   * A placed doodad: its current type, and its own contents when it is a
   * container (a chest, say); `None` when it holds no items at all.
   */
  datatype Doodad = Doodad(dtype: DoodadType, containedItems: Option<seq<Item>>)

  /**
   * What the game reports about a player: name, position, the position it
   * last moved from, its facing direction and the point it faces.
   */
  datatype Player = Player(name: string, x: int, y: int, z: int, fromX: int, fromY: int,
                           facingDirection: Direction, facingPoint: Point)

  /** The identity of the item container lying on a tile. */
  datatype ContainerRef = TileContainer(at: Point)

  /** What the mod asks the game to do, in the order it asks. */
  datatype Effect =
    | TileUpdate(at: Point)                          // world.updateTile(..., DoodadChangeType)
    | ViewUpdate                                     // game.updateView(RenderSource.Mod, true)
    | DoorClosedToAll(door: Doodad, playerName: string)  // "ClosedDoor" message to every player
    | ToggleMessageToLocal(state: string)            // "ToggleGroundContainer" message to the local player

  /**
   * A snapshot of the game state the mod sees. A point absent from `tiles`
   * has no tile; `None` is a tile without a doodad. A point absent from
   * `tileItems` has an empty tile container.
   */
  datatype World = World(tiles: map<Point, Option<Doodad>>,
                         tileItems: map<Point, seq<Item>>,
                         openContainers: set<ContainerRef>,
                         log: seq<Effect>)

  /** The items of the tile container at `p`. */
  function TileItems(w: World, p: Point): seq<Item>
  {
    if p in w.tileItems then w.tileItems[p] else []
  }

  /** The game, as one mutable object. */
  class Host {
    /** `Direction.vector`: the step offset of each facing direction. */
    const vector: Direction -> Vector2
    /** `Doodad.description()`: the description the game keeps for each doodad type, if any. */
    const describe: DoodadType -> Option<DoodadDescription>

    var tiles: map<Point, Option<Doodad>>
    var tileItems: map<Point, seq<Item>>
    var openContainers: set<ContainerRef>
    var log: seq<Effect>

    function State(): World
      reads this
    {
      World(tiles, tileItems, openContainers, log)
    }

    constructor (vector: Direction -> Vector2, describe: DoodadType -> Option<DoodadDescription>, w: World)
      ensures this.vector == vector && this.describe == describe
      ensures State() == w
    {
      this.vector := vector;
      this.describe := describe;
      tiles, tileItems, openContainers, log := w.tiles, w.tileItems, w.openContainers, w.log;
    }

    /** `doodad.changeType(t)`: the doodad on `at` gets type `t`; nothing else changes. */
    method ChangeType(at: Point, t: DoodadType)
      requires at in tiles && tiles[at].Some?
      modifies this
      ensures State() == old(State()).(tiles := old(tiles)[at := Some(old(tiles)[at].value.(dtype := t))])
    {
      tiles := tiles[at := Some(tiles[at].value.(dtype := t))];
    }

    /** `world.updateTile` at `at`. */
    method UpdateTile(at: Point)
      modifies this
      ensures State() == old(State()).(log := old(log) + [TileUpdate(at)])
    {
      log := log + [TileUpdate(at)];
    }

    /** `game.updateView`. */
    method UpdateView()
      modifies this
      ensures State() == old(State()).(log := old(log) + [ViewUpdate])
    {
      log := log + [ViewUpdate];
    }

    /** `MessageManager.toAll` with the "door closed" message naming `door` and the player. */
    method BroadcastDoorClosed(door: Doodad, playerName: string)
      modifies this
      ensures State() == old(State()).(log := old(log) + [DoorClosedToAll(door, playerName)])
    {
      log := log + [DoorClosedToAll(door, playerName)];
    }

    /** `localPlayer.messages.send` with the ground-container message and its one argument. */
    method SendToLocalPlayer(state: string)
      modifies this
      ensures State() == old(State()).(log := old(log) + [ToggleMessageToLocal(state)])
    {
      log := log + [ToggleMessageToLocal(state)];
    }

    /** `oldui.isContainerOpen`. */
    predicate IsContainerOpen(c: ContainerRef)
      reads this
    {
      c in openContainers
    }

    /** `oldui.openContainer`. */
    method OpenContainer(c: ContainerRef)
      modifies this
      ensures State() == old(State()).(openContainers := old(openContainers) + {c})
    {
      openContainers := openContainers + {c};
    }

    /** `oldui.closeContainer`. */
    method CloseContainer(c: ContainerRef)
      modifies this
      ensures State() == old(State()).(openContainers := old(openContainers) - {c})
    {
      openContainers := openContainers - {c};
    }
  }
}
