/**
 * The mod's two rules: closing the door a player just walked through, and
 * showing or hiding the container lying on the tile the local player faces.
 * Each rule is a method of the mod object `Jeeves`, proved against a pure
 * function that says what it does to the game state.
 */
module Jeeves {
  import opened Options
  import opened Game

  // ---------------------------------------------------------------------
  // Door closer
  // ---------------------------------------------------------------------

  /**
   * The tile the door closer examines: the one from which a step along the
   * player's facing direction lands on the point the game reports as
   * `fromX`, `fromY`, on the player's plane. It is the tile the player just
   * left only if the game has already set `fromX`, `fromY` to the new
   * position when the move completes.
   */
  function TileBehindPlayer(player: Player, vector: Direction -> Vector2): (p: Point)
    ensures p.z == player.z
    ensures p.x + vector(player.facingDirection).x == player.fromX
    ensures p.y + vector(player.facingDirection).y == player.fromY
  {
    var v := vector(player.facingDirection);
    Point(player.fromX - v.x, player.fromY - v.y, player.z)
  }

  /** A doodad is closable when the game describes it as a door or a gate that is not closed. */
  predicate IsClosableDoor(door: Doodad, describe: DoodadType -> Option<DoodadDescription>)
  {
    match describe(door.dtype)
    case None => false
    case Some(dd) => (dd.isDoor || dd.isGate) && !dd.isClosed
  }

  /** The type a closed door gets: only the open wooden door and gate have one. */
  function ClosedType(t: DoodadType): (c: Option<DoodadType>)
    ensures c == Some(WoodenDoor) <==> t == WoodenDoorOpen
    ensures c == Some(WoodenGate) <==> t == WoodenGateOpen
    ensures c.None? <==> t != WoodenDoorOpen && t != WoodenGateOpen
  {
    match t
    case WoodenDoorOpen => Some(WoodenDoor)
    case WoodenGateOpen => Some(WoodenGate)
    case _ => None
  }

  /**
   * The effect of closing the doodad lying on `at` for `player`. When its
   * type has a closed type, only that doodad's type changes and the log grows
   * by a tile update there, a view update and one broadcast naming the closed
   * doodad and the player, in that order; otherwise nothing changes.
   */
  function CloseDoorResult(w: World, at: Point, player: Player): (w': World)
    requires at in w.tiles && w.tiles[at].Some?
    ensures ClosedType(w.tiles[at].value.dtype).None? ==> w' == w
    ensures ClosedType(w.tiles[at].value.dtype).Some? ==>
              var closed := w.tiles[at].value.(dtype := ClosedType(w.tiles[at].value.dtype).value);
              w'.tiles.Keys == w.tiles.Keys &&
              (forall q :: q in w.tiles && q != at ==> w'.tiles[q] == w.tiles[q]) &&
              w'.tiles[at] == Some(closed) &&
              w'.tileItems == w.tileItems &&
              w'.openContainers == w.openContainers &&
              w'.log == w.log + [TileUpdate(at), ViewUpdate, DoorClosedToAll(closed, player.name)]
  {
    var door := w.tiles[at].value;
    match ClosedType(door.dtype)
    case None => w
    case Some(t) =>
      var closed := door.(dtype := t);
      w.(tiles := w.tiles[at := Some(closed)],
         log := w.log + [TileUpdate(at), ViewUpdate, DoorClosedToAll(closed, player.name)])
  }

  /** Whether the tile behind the player carries a closable doodad. */
  predicate DoorBehind(w: World, player: Player, vector: Direction -> Vector2,
                       describe: DoodadType -> Option<DoodadDescription>)
  {
    var at := TileBehindPlayer(player, vector);
    at in w.tiles && w.tiles[at].Some? && IsClosableDoor(w.tiles[at].value, describe)
  }

  /**
   * The effect of a completed move: nothing when the CloseDoor flag is off or
   * no closable doodad lies behind the player; otherwise that doodad is closed.
   */
  function MoveCompleteResult(w: World, flags: GlobalData, player: Player, vector: Direction -> Vector2,
                              describe: DoodadType -> Option<DoodadDescription>): (w': World)
    ensures !Flag(flags, CloseDoor) || !DoorBehind(w, player, vector, describe) ==> w' == w
    ensures Flag(flags, CloseDoor) && DoorBehind(w, player, vector, describe) ==>
              w' == CloseDoorResult(w, TileBehindPlayer(player, vector), player)
  {
    if !Flag(flags, CloseDoor) then w
    else if DoorBehind(w, player, vector, describe) then CloseDoorResult(w, TileBehindPlayer(player, vector), player)
    else w
  }

  // ---------------------------------------------------------------------
  // Ground container toggle
  // ---------------------------------------------------------------------

  /** Whether the doodad on the faced tile is itself a container. */
  predicate FacesContainerDoodad(w: World, localPlayer: Player)
    requires localPlayer.facingPoint in w.tiles
  {
    var tile := w.tiles[localPlayer.facingPoint];
    tile.Some? && tile.value.containedItems.Some?
  }

  /** Whether the toggle command acts: the flag is on, no container doodad is faced, and the tile container is not empty. */
  predicate ToggleApplies(w: World, flags: GlobalData, localPlayer: Player)
    requires Flag(flags, ManageGroundContainer) ==> localPlayer.facingPoint in w.tiles
  {
    Flag(flags, ManageGroundContainer) &&
    !FacesContainerDoodad(w, localPlayer) &&
    |TileItems(w, localPlayer.facingPoint)| != 0
  }

  /**
   * The effect of the toggle command and its return value. It returns true
   * exactly when it acts. Then the faced tile container, and only it, changes
   * whether it is shown, and the local player is told the new state: "shown"
   * when the view is now open, "hidden" when it is now closed. Otherwise
   * nothing changes.
   */
  function ToggleGroundContainerResult(w: World, flags: GlobalData, localPlayer: Player): (r: (World, bool))
    requires Flag(flags, ManageGroundContainer) ==> localPlayer.facingPoint in w.tiles
    ensures r.1 <==> ToggleApplies(w, flags, localPlayer)
    ensures !r.1 ==> r.0 == w
    ensures r.1 ==>
              var c := TileContainer(localPlayer.facingPoint);
              (forall d :: d in r.0.openContainers <==> (d in w.openContainers) != (d == c)) &&
              r.0.tiles == w.tiles && r.0.tileItems == w.tileItems &&
              r.0.log == w.log + [ToggleMessageToLocal(if c in r.0.openContainers then "shown" else "hidden")]
  {
    if !Flag(flags, ManageGroundContainer) then (w, false)
    else if FacesContainerDoodad(w, localPlayer) then (w, false)
    else if |TileItems(w, localPlayer.facingPoint)| == 0 then (w, false)
    else
      var c := TileContainer(localPlayer.facingPoint);
      if c in w.openContainers then
        (w.(openContainers := w.openContainers - {c}, log := w.log + [ToggleMessageToLocal("hidden")]), true)
      else
        (w.(openContainers := w.openContainers + {c}, log := w.log + [ToggleMessageToLocal("shown")]), true)
  }

  // ---------------------------------------------------------------------
  // The mod object
  // ---------------------------------------------------------------------

  class Jeeves {
    /** The persisted option flags. */
    var globalData: GlobalData

    /** The mod as loaded, with whatever flags were persisted. */
    constructor (loaded: GlobalData)
      ensures globalData == loaded
    {
      globalData := loaded;
    }

    /** The check button's toggle handler: the option takes the button's new state. */
    method OnOptionToggled(opt: CheckboxOption, checked: bool)
      modifies this
      ensures globalData == old(globalData)[opt := checked]
    {
      globalData := globalData[opt := checked];
    }

    /** The check button's refresh method: whether the option is on; an absent flag is off. */
    method RefreshOption(opt: CheckboxOption) returns (checked: bool)
      ensures checked <==> opt in globalData && globalData[opt]
    {
      checked := Flag(globalData, opt);
    }

    /** The "moveComplete" handler of the door closer. */
    method MoveComplete(game: Host, player: Player)
      modifies game
      ensures game.State() == MoveCompleteResult(old(game.State()), globalData, player, game.vector, game.describe)
    {
      if !Flag(globalData, CheckboxOption.CloseDoor) {
        return;
      }
      var at := TileBehindPlayer(player, game.vector);
      if at in game.tiles && game.tiles[at].Some? && IsClosableDoor(game.tiles[at].value, game.describe) {
        CloseDoor(game, at, player);
      }
    }

    /** Close the doodad lying on `at` for `player`, if its type is an open wooden door or gate. */
    method CloseDoor(game: Host, at: Point, player: Player)
      requires at in game.tiles && game.tiles[at].Some?
      modifies game
      ensures game.State() == CloseDoorResult(old(game.State()), at, player)
    {
      var door := game.tiles[at].value;
      if door.dtype == WoodenDoorOpen {
        game.ChangeType(at, WoodenDoor);
      } else if door.dtype == WoodenGateOpen {
        game.ChangeType(at, WoodenGate);
      } else {
        return;
      }
      var closed := game.tiles[at].value;
      game.UpdateTile(at);
      game.UpdateView();
      game.BroadcastDoorClosed(closed, player.name);
    }

    /** The key-bound ground-container command; returns whether it handled the key. */
    method OnToggleGroundContainer(game: Host, localPlayer: Player) returns (handled: bool)
      requires Flag(globalData, ManageGroundContainer) ==> localPlayer.facingPoint in game.tiles
      modifies game
      ensures (game.State(), handled) == ToggleGroundContainerResult(old(game.State()), globalData, localPlayer)
    {
      if !Flag(globalData, ManageGroundContainer) {
        return false;
      }
      var facingTile := game.tiles[localPlayer.facingPoint];
      if facingTile.Some? && facingTile.value.containedItems.Some? {
        return false;
      }
      var facingPoint := localPlayer.facingPoint;
      var items := if facingPoint in game.tileItems then game.tileItems[facingPoint] else [];
      if |items| == 0 {
        return false;
      }
      var tileContainer := TileContainer(facingPoint);
      if game.IsContainerOpen(tileContainer) {
        game.CloseContainer(tileContainer);
        game.SendToLocalPlayer("hidden");
      } else {
        game.OpenContainer(tileContainer);
        game.SendToLocalPlayer("shown");
      }
      return true;
    }
  }
}
