/** Properties of the two rules that relate several calls or several inputs. */
module Properties {
  import opened Options
  import opened Game
  import opened Jeeves

  /** A closed type has no closed type of its own, and no two types close to the same one. */
  lemma ClosedTypeFinalAndInjective(t: DoodadType, u: DoodadType)
    ensures ClosedType(t).Some? ==> ClosedType(ClosedType(t).value).None?
    ensures ClosedType(t).Some? && ClosedType(t) == ClosedType(u) ==> t == u
  {
  }

  /**
   * The door closer is idempotent: handling the same completed move a second
   * time changes nothing, so an already-closed door never yields a second
   * tile update, view update or "door closed" broadcast.
   */
  lemma {:induction false} MoveCompleteIdempotent(w: World, flags: GlobalData, player: Player,
                                                  vector: Direction -> Vector2,
                                                  describe: DoodadType -> Option<DoodadDescription>)
    ensures var w1 := MoveCompleteResult(w, flags, player, vector, describe);
            MoveCompleteResult(w1, flags, player, vector, describe) == w1
  {
  }

  /**
   * A completed move changes the world exactly when the CloseDoor flag is on,
   * the tile behind the player holds a doodad, the game describes that doodad
   * as an open door or gate, and its type is an open wooden door or gate. A
   * missing tile, doodad or description therefore changes nothing, and so
   * does a closable doodad of any other type.
   */
  lemma MoveCompleteActsExactlyOnClosableDoor(w: World, flags: GlobalData, player: Player,
                                              vector: Direction -> Vector2,
                                              describe: DoodadType -> Option<DoodadDescription>)
    ensures var at := TileBehindPlayer(player, vector);
            MoveCompleteResult(w, flags, player, vector, describe) != w <==>
              Flag(flags, CloseDoor) && at in w.tiles && w.tiles[at].Some? &&
              describe(w.tiles[at].value.dtype).Some? &&
              (describe(w.tiles[at].value.dtype).value.isDoor || describe(w.tiles[at].value.dtype).value.isGate) &&
              !describe(w.tiles[at].value.dtype).value.isClosed &&
              ClosedType(w.tiles[at].value.dtype).Some?
  {
  }

  /**
   * Which tile the door closer examines, and so what it does, depends only on
   * where the player moved from, its plane, its facing direction (and, for
   * the broadcast, its name), never on where it moved to.
   */
  lemma MoveCompleteIgnoresDestination(w: World, flags: GlobalData, p1: Player, p2: Player,
                                       vector: Direction -> Vector2,
                                       describe: DoodadType -> Option<DoodadDescription>)
    requires p1.fromX == p2.fromX && p1.fromY == p2.fromY && p1.z == p2.z
    requires p1.facingDirection == p2.facingDirection && p1.name == p2.name
    ensures TileBehindPlayer(p1, vector) == TileBehindPlayer(p2, vector)
    ensures MoveCompleteResult(w, flags, p1, vector, describe) == MoveCompleteResult(w, flags, p2, vector, describe)
  {
  }

  /**
   * A completed move touches at most the tile behind the player: every other
   * tile, the tile containers and the open views are left alone, and the log
   * only grows.
   */
  lemma MoveCompleteFrame(w: World, flags: GlobalData, player: Player, vector: Direction -> Vector2,
                          describe: DoodadType -> Option<DoodadDescription>, q: Point)
    requires q in w.tiles && q != TileBehindPlayer(player, vector)
    ensures var w1 := MoveCompleteResult(w, flags, player, vector, describe);
            q in w1.tiles && w1.tiles[q] == w.tiles[q] &&
            w1.tiles.Keys == w.tiles.Keys && w1.tileItems == w.tileItems &&
            w1.openContainers == w.openContainers && w.log <= w1.log
  {
  }

  /**
   * Toggling twice restores the set of shown containers. Both calls act or
   * neither does; when they act, the local player is told "shown" and then
   * "hidden", or "hidden" and then "shown", and nothing else changes.
   */
  lemma {:induction false} ToggleTwiceRestores(w: World, flags: GlobalData, localPlayer: Player)
    requires Flag(flags, ManageGroundContainer) ==> localPlayer.facingPoint in w.tiles
    ensures var (w1, h1) := ToggleGroundContainerResult(w, flags, localPlayer);
            var (w2, h2) := ToggleGroundContainerResult(w1, flags, localPlayer);
            var first := if TileContainer(localPlayer.facingPoint) in w.openContainers then "hidden" else "shown";
            var second := if first == "hidden" then "shown" else "hidden";
            h1 == h2 &&
            (!h1 ==> w2 == w) &&
            (h1 ==> w2 == w.(log := w.log + [ToggleMessageToLocal(first), ToggleMessageToLocal(second)]))
  {
  }

  /** The world after the local player presses the ground-container key `n` times in a row. */
  function PressToggle(w: World, flags: GlobalData, localPlayer: Player, n: nat): World
    requires Flag(flags, ManageGroundContainer) ==> localPlayer.facingPoint in w.tiles
    decreases n
  {
    if n == 0 then w
    else PressToggle(ToggleGroundContainerResult(w, flags, localPlayer).0, flags, localPlayer, n - 1)
  }

  /**
   * After `n` presses the faced container is shown exactly when it was shown
   * before and `n` is even, or was hidden and `n` is odd; no other container,
   * tile or tile container changes, and the local player got one message per
   * press. When the command does not apply, no press changes anything.
   */
  lemma {:induction false} PressToggleParity(w: World, flags: GlobalData, localPlayer: Player, n: nat)
    requires Flag(flags, ManageGroundContainer) ==> localPlayer.facingPoint in w.tiles
    ensures var wn := PressToggle(w, flags, localPlayer, n);
            wn.tiles == w.tiles && wn.tileItems == w.tileItems && w.log <= wn.log &&
            (!ToggleApplies(w, flags, localPlayer) ==> wn == w) &&
            (ToggleApplies(w, flags, localPlayer) ==>
               |wn.log| == |w.log| + n &&
               forall d :: d in wn.openContainers <==>
                             (d in w.openContainers) != (d == TileContainer(localPlayer.facingPoint) && n % 2 == 1))
    decreases n
  {
    if n > 0 {
      var w1 := ToggleGroundContainerResult(w, flags, localPlayer).0;
      PressToggleParity(w1, flags, localPlayer, n - 1);
    }
  }

  /**
   * The ordering the door closer keeps in the effect log: every "door
   * closed" broadcast names a closed wooden door or gate and comes right
   * after the view update, which comes right after the tile update.
   */
  ghost predicate DoorEffectsOrdered(log: seq<Effect>)
  {
    forall i :: 0 <= i < |log| && log[i].DoorClosedToAll? ==>
      2 <= i && log[i - 1] == ViewUpdate && log[i - 2].TileUpdate? &&
      (log[i].door.dtype == WoodenDoor || log[i].door.dtype == WoodenGate)
  }

  /** A completed move keeps the effect log ordered. */
  lemma MoveCompleteKeepsEffectsOrdered(w: World, flags: GlobalData, player: Player, vector: Direction -> Vector2,
                                        describe: DoodadType -> Option<DoodadDescription>)
    requires DoorEffectsOrdered(w.log)
    ensures DoorEffectsOrdered(MoveCompleteResult(w, flags, player, vector, describe).log)
  {
  }

  /** The ground-container command keeps the effect log ordered. */
  lemma ToggleKeepsEffectsOrdered(w: World, flags: GlobalData, localPlayer: Player)
    requires Flag(flags, ManageGroundContainer) ==> localPlayer.facingPoint in w.tiles
    requires DoorEffectsOrdered(w.log)
    ensures DoorEffectsOrdered(ToggleGroundContainerResult(w, flags, localPlayer).0.log)
  {
  }
}
