# Jeeves: a verified model of the mod's two automation rules

Jeeves is a mod for a tile-based survival game. It offers two switchable
automations, each backed by one boolean in the mod's persisted global data:

- **Close door.** When a player finishes a move, the mod looks at the tile
  behind the player. That tile is the point the game reports as `fromX`,
  `fromY`, minus the step vector of the player's facing direction, on the
  player's plane (it is the tile just left if the game has already moved
  `fromX`, `fromY` to the new position; see "Left out" on `fromX` and `fromY`). If the doodad there is described as an open door or gate,
  the mod closes it. An open wooden door becomes a wooden door, and an open
  wooden gate becomes a wooden gate. It then asks for a tile update there and
  a view update, and broadcasts a "door closed" message naming the door and
  the player. A doodad of any other type is left alone, with no effects.
- **Manage ground container.** A key-bound command shows or hides the view
  of the item container lying on the tile the local player faces. It declines
  (returns false) when the flag is off. It also declines when the faced doodad
  is itself a container, or when the tile container is empty. Otherwise it
  flips whether that container is shown and tells the local player "shown" or
  "hidden". It then returns true.

The model has four modules:

- `Options` (`options.dfy`): the checkbox options and the flag record. A flag
  is read as the mod reads it: an absent key is false.
- `Game` (`game.dfy`): the game state the mod sees, and the engine calls it
  makes, as the class `Host`. The state is tiles with optional doodads, the
  items of each tile container, the set of shown containers, and an
  append-only log of requested effects. The game's direction-vector table and
  doodad-description table are `const` function fields of `Host`, because the
  mod only consults them.
- `Jeeves` (`jeeves.dfy`): the rules as pure functions on a `World` snapshot.
  The class `Jeeves` holds the mod's `globalData`. Its handler methods drive
  `Host` step by step, in the source's order. Each method is proved to leave
  exactly the state its function describes.
- `Properties` (`properties.dfy`): lemmas that relate several calls or
  inputs. They cover idempotence of the door closer, independence from the
  destination, the frame of a move, toggling twice, `n` presses, and the
  ordering of effects in the log.

Three behaviours one might expect of such a mod are absent from the code,
and so from the model:

- `src/Jeeves.ts:16` imports `CheckboxOption` from `./IJeeves`, which has
  two options, `CloseDoor` and `ManageGroundContainer` (src/IJeeves.ts:9-12).
  `src/Models.ts:15` declares a third, `AutoPaddle`, but `src/Jeeves.ts` does
  not use that file, and it has no auto-paddle handler.
- The door closer has no re-entrancy guard.
- No handler closes a container view when the container is destroyed.

## Model

| member | source | states |
|---|---|---|
| `Options.FlagAfterWrite` | src/Jeeves.ts:58-59 | writing an option's flag and reading it back with `!!` gives the written value, and every other option reads as before |
| `Jeeves.Jeeves.constructor` | src/Jeeves.ts:22-23 | the mod starts with the global data the game loaded for it |
| `Jeeves.Jeeves.OnOptionToggled` | src/Jeeves.ts:59 | the check button's toggle sets that option's flag to the button state and leaves the other flags alone |
| `Jeeves.Jeeves.RefreshOption` | src/Jeeves.ts:58 | the refresh reports an option as on exactly when its key is present and true, which is `Options.Flag`, the read the handlers also use (src/Jeeves.ts:80,142) |
| `Jeeves.TileBehindPlayer` | src/Jeeves.ts:92-98 | the tile examined is the one from which one step along the facing vector reaches the reported (fromX, fromY), on the player's z |
| `Jeeves.ClosedType` | src/Jeeves.ts:118-122 | open wooden door maps to wooden door, open wooden gate to wooden gate, and no other type has a closed type |
| `Jeeves.CloseDoorResult` | src/Jeeves.ts:117-131 | for an unmapped type nothing changes; otherwise only that doodad's type changes, and the log grows by tile update, view update and one broadcast naming the closed door and the player, in that order |
| `Jeeves.MoveCompleteResult` | src/Jeeves.ts:79-85 | with the CloseDoor flag off (read by `Options.Flag`, absent key false), or with no closable doodad on the tile behind (`Jeeves.DoorBehind`: a tile exists, it holds a doodad, and `Jeeves.IsClosableDoor` holds of it), the world is unchanged; otherwise the door behind is closed |
| `Properties.MoveCompleteActsExactlyOnClosableDoor` | src/Jeeves.ts:80-85 | a move changes the world if and only if the flag is on, the tile behind holds a doodad whose description exists, says door or gate and does not say closed (`Jeeves.IsClosableDoor`, src/Jeeves.ts:106-110), and its type is an open wooden door or gate; a missing tile, doodad or description changes nothing |
| `Jeeves.ToggleGroundContainerResult` | src/Jeeves.ts:141-160 | returns true exactly when `Jeeves.ToggleApplies` holds: the flag is on (`Options.Flag`), the faced doodad is no container (`Jeeves.FacesContainerDoodad` is false, src/Jeeves.ts:144-145) and the tile container is non-empty (`Game.TileItems`, src/Jeeves.ts:148-149); the open check is `Game.Host.IsContainerOpen` (src/Jeeves.ts:151); if false nothing changes; if true only the faced container's shown state flips and the local player is told the new state ("shown" or "hidden") |
| `Jeeves.Jeeves.MoveComplete` | src/Jeeves.ts:78-85 | the handler leaves the game exactly in the state `MoveCompleteResult` gives |
| `Jeeves.Jeeves.CloseDoor` | src/Jeeves.ts:117-131 | the sequence of change-type, tile update, view update and broadcast leaves the game exactly in the state `CloseDoorResult` gives |
| `Jeeves.Jeeves.OnToggleGroundContainer` | src/Jeeves.ts:140-160 | the command's result and the game's new state are exactly those of `ToggleGroundContainerResult` |
| `Game.Host.ChangeType` | src/Jeeves.ts:118-121 | changing a doodad's type changes that doodad's type and nothing else |
| `Game.Host.UpdateTile` | src/Jeeves.ts:124 | a tile update for the given point is appended to the log |
| `Game.Host.UpdateView` | src/Jeeves.ts:125 | a view update is appended to the log |
| `Game.Host.BroadcastDoorClosed` | src/Jeeves.ts:126-130 | one "door closed" message to all players, naming the door and the player, is appended to the log |
| `Game.Host.SendToLocalPlayer` | src/Jeeves.ts:153-156 | one ground-container message to the local player is appended to the log |
| `Game.Host.OpenContainer` | src/Jeeves.ts:155 | the container joins the set of shown containers |
| `Game.Host.CloseContainer` | src/Jeeves.ts:152 | the container leaves the set of shown containers |
| `Properties.ClosedTypeFinalAndInjective` | src/Jeeves.ts:118-121 | a closed type has no closed type of its own, and no two types close to the same type |
| `Properties.MoveCompleteIdempotent` | src/Jeeves.ts:78-131 | for every description table, handling the same move twice changes nothing the second time, so no second broadcast: a closed type has no closed type of its own |
| `Properties.MoveCompleteIgnoresDestination` | src/Jeeves.ts:92-98 | the tile examined, and the whole result, depend only on fromX, fromY, z, facing direction and name, not on the destination |
| `Properties.MoveCompleteFrame` | src/Jeeves.ts:117-131 | a move changes no tile other than the one behind the player, no tile container and no shown view, and the log only grows |
| `Properties.ToggleTwiceRestores` | src/Jeeves.ts:151-159 | toggling twice returns the same result both times and restores the shown set; when it acts, the two messages are "hidden" then "shown" or the reverse |
| `Properties.PressToggleParity` | src/Jeeves.ts:140-160 | after n presses the faced container's shown state is flipped exactly when n is odd; nothing else changes, and there is one message per press |
| `Properties.MoveCompleteKeepsEffectsOrdered` | src/Jeeves.ts:124-130 | after a move, every broadcast in the log still names a closed wooden door or gate and directly follows a view update, which directly follows a tile update |
| `Properties.ToggleKeepsEffectsOrdered` | src/Jeeves.ts:151-159 | the ground-container command keeps that ordering of the log |

## Left out

- Options UI: the check-button widgets, texts, tooltips and translations (src/Jeeves.ts:45-69). These are presentation only. The flag write and read they perform are modelled.
- The init message shown when the game screen appears (src/Jeeves.ts:30-36). It is a lifecycle hook with a message and no logic.
- The servant whistle: item registration, the BlowWhistle action with its delay and turn handling, and the CreateWhistle command (src/Jeeves.ts:164-204). These are registration data and engine calls.
- Persistence of the global data across sessions is done by the game. The model takes the loaded record as the constructor's argument.
- `Direction.vector` and `Doodad.description()` are game tables the mod only consults. They are parameters of the model (the `const` fields of `Host`), so nothing is assumed about their values.
- `getFacingPoint()` is taken as a field of the player snapshot. `getFacingTile()` is taken to be the tile at that point. The command assumes that tile exists, because the code dereferences it without a check. That is why the command requires it, and only when the flag is on.
- `itemManager.getTileContainer` may create an empty container when a tile has none. The model reads a missing container as empty and records no creation, because the mod cannot observe the difference.
- `door.x`, `door.y` and `door.z` are the coordinates of the tile the doodad lies on. The model uses that tile's point for the tile update.
- The message source and type arguments (`Source.Action`, `MessageType.None`) and the rendering of names (`door.getName()`) are not modelled. The broadcast records the doodad after its type change and the player's name.
- Rendering, the view refresh, and message delivery are opaque effects appended to a log.
- The game decides whether `fromX` and `fromY` still hold the pre-move position when a move completes. The model reads them as the game reports them.
- `Game.Host.ChangeType` raises no engine event. A `moveComplete` that the game might deliver from inside `changeType`, before the handler returns, is not modelled; each handler call runs to completion on its own.
