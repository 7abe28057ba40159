# Maze game key: pickup, drop and unlock

This project models the key of a first-person VR maze game. A key lies in the
maze until the player picks it up. The player can drop it again, after which a
cooldown must pass before it can be picked up once more. While the player
carries it, the key opens the door whose id equals its own: in one update the
door goes away, the key goes away, the player's controller forgets the key and
the key forgets its holder.

The model has these modules:

- `Ticks` (`ticks.dfy`): SDL's millisecond tick counter as an unsigned 32-bit
  number. The key's drop time is taken to be a 32-bit unsigned field like the
  tick it stores, so `now - drop_time_` is computed modulo 2^32.
- `Geometry` (`geometry.dfy`): the parts of a transform and a bounding box that
  the key reads and writes. A transform is a translation, an optional parent
  handle and the list of rotations composed since the last reset. A bounding
  box is its corner points and whether its own transform has a parent.
- `KeyMachine` (`key_machine.dfy`): the key's fields as a value (`KeyState`)
  and one pure function per key method. `Update` comes with `UpdateEffects`,
  the ordered list of `GoAway` and `UseKey` calls it makes. Lemmas cover single
  steps and whole runs (`Run`, `RunEffects`) over any sequence of
  `SetHolder`, `Drop`, `Update` and `GoAway` calls.
- `Maze` (`key.dfy`): the objects, with methods that change them in place.
  - `Key` holds the fields of the C++ key. Each of its methods is proved to
    change the key exactly as the matching `KeyMachine` function says.
  - `Door` has a `gone` flag.
  - `Controller` (the holder) has `heldKey`, and `UseKey` clears it.
  - `CallLog` is a proof-only record. `Door.GoAway`, `Key.GoAway` and
    `Controller.UseKey` each append their own call to it, so the order of the
    calls in `Key.Update` is proved about the calls themselves.
  - `Map` holds its doors in registration order and a `touching` relation
    that stands for the bounding-box geometry. `IntersectsDoorWithId` returns
    the first registered door with the requested id that touches the key.
- `Scenarios` (`scenarios.dfy`): client code for three situations. In the
  first, a held key opens its door. In the second, a held key touches a door
  with another id and nothing changes. In the third, a dropped key cannot be
  picked up at the drop tick but can once the cooldown has passed.

The clock is a parameter: `Drop(now)` and `CanBePickedUp(now)` take the tick
that `SDL_GetTicks` would return.

Two consequences of the code at `key.cpp:49` are worth stating:

- The comparison is strict (`>`), so exactly `KEY_DROP_PICKUP_COOLDOWN_MS`
  ticks after a drop the key still cannot be picked up.
- The ticks are 32-bit unsigned, so 2^32 ms (about 49.7 days) after a drop
  the elapsed time reads as zero again. `PickupAfterDrop` and
  `CooldownAcrossRun` therefore state the cooldown only for `dt` below 2^32.

## Model

| member | source | states |
|---|---|---|
| `Maze.Key.constructor` | MazeGame/MazeGame/key.cpp:8-14 | A new key has the given id and map. It caches the model's box corners before it is moved. It has no holder, lies flat (one quarter turn about x) at `KEY_HEIGHT` over `pos`, has no parent, and its box is rebuilt from the cache with no parent. |
| `Maze.Key.Update` | MazeGame/MazeGame/key.cpp:16-31 | The new key state is `KeyMachine.Update` of the old one, given the door the map reports for the key's own id. The calls the door, the key and the holder record in the shared log are exactly `KeyMachine.UpdateEffects`, in that order. If the key was held and a door was found, that door is gone and the holder's `heldKey` is null. If the key was held and no door was found, the holder is unchanged. No door with another id changes. No door other than the found one changes, and an unheld key changes no door. |
| `Maze.Key.GameObjectUpdate` | MazeGame/MazeGame/key.cpp:30 | The base game-object update records the current pose as the one the box's world corners follow, and changes nothing else. |
| `Maze.Key.GoAway` | MazeGame/MazeGame/key.cpp:33-36 | The new key state is `KeyMachine.GoAway` of the old one. The call is recorded in the log. |
| `Maze.Key.SetHolder` | MazeGame/MazeGame/key.cpp:38-40 | The key may change only its `holder` field, which becomes the given controller. |
| `Maze.Key.Drop` | MazeGame/MazeGame/key.cpp:42-46 | The new key state is `KeyMachine.Drop` of the old one at tick `now`. |
| `Maze.Key.CanBePickedUp` | MazeGame/MazeGame/key.cpp:48-50 | True iff `now - dropTime` exceeds the cooldown strictly. Without wrap-around this is the plain difference; when `now` has wrapped below `dropTime`, 2^32 is added. Nothing changes. |
| `Maze.Key.InitTransform` | MazeGame/MazeGame/key.cpp:52-60 | The new key state is `KeyMachine.InitTransform` of the old one. |
| `Maze.Map.IntersectsDoorWithId` | MazeGame/MazeGame/key.cpp:17 | The returned door is `FirstMatch`: if not null, it is a registered door with the queried id that touches the key. If null, no registered door has that id and touches the key. |
| `Maze.Map.FirstMatchIndex` | MazeGame/MazeGame/key.cpp:17 | Returns the index of a door with the id that touches the key, or the end of the list. No door before that index qualifies. |
| `Maze.Map.FirstMatch` | MazeGame/MazeGame/key.cpp:17 | Returns a registered door with the queried id that touches the key, or null when no registered door qualifies. |
| `Maze.Door.GoAway` | MazeGame/MazeGame/key.cpp:19 | Afterwards the door is gone, whether or not it was before. The call is recorded in the log. |
| `Maze.Controller.UseKey` | MazeGame/MazeGame/key.cpp:21 | Afterwards the controller holds no key, whether or not it held one before. The call is recorded in the log. |
| `KeyMachine.InitTransform` | MazeGame/MazeGame/key.cpp:52-60 | The key keeps its previous x and y and gets z = `KEY_HEIGHT`. It has no parent and lies flat. Its box is the cached corners with no parent. No other field changes. |
| `KeyMachine.GoAway` | MazeGame/MazeGame/key.cpp:33-36 | The transform becomes `(0, 0, -3)` with no parent and no rotation. No other field changes. |
| `KeyMachine.SetHolder` | MazeGame/MazeGame/key.cpp:38-40 | The holder becomes `h`. No other field changes: not position, drop time or box. |
| `KeyMachine.Drop` | MazeGame/MazeGame/key.cpp:42-46 | The holder becomes none and the drop time becomes `now`. The key keeps its previous x and y and gets z = `KEY_HEIGHT`. It has no parent and lies flat. Its box is rebuilt from the cache with no parent. |
| `KeyMachine.Update` | MazeGame/MazeGame/key.cpp:16-31 | The holder becomes none, and the transform the gone one, exactly when the key was held and a door was found; otherwise both stay. The box is rebuilt from the cache with no parent exactly when the key is still held afterwards. The box ends tracking the final pose. The drop time and cache never change. |
| `KeyMachine.UpdateEffects` | MazeGame/MazeGame/key.cpp:17-23 | Calls are made exactly when the key was held and a door was found. The only door sent away is the one found. The only holder told is the key's current holder. |
| `KeyMachine.CanBePickedUp` | MazeGame/MazeGame/key.cpp:48-50 | True iff `now - dropTime` exceeds the cooldown strictly. Without wrap-around this is the plain difference; when `now` has wrapped below the drop time, 2^32 is added. |
| `KeyMachine.UnlockTransaction` | MazeGame/MazeGame/key.cpp:17-25 | A held key that finds a door ends with no holder and the gone transform. Its box is not refreshed, because the holder is already cleared when line 25 tests it. The calls are exactly, in order: door `GoAway`, key `GoAway`, holder `UseKey`; the holder is cleared after them. |
| `KeyMachine.HeldWithoutDoor` | MazeGame/MazeGame/key.cpp:17-30 | A held key that finds no door keeps its holder and pose. Its box is rebuilt from the cache with no parent. It makes no calls. |
| `KeyMachine.UnheldUpdateIsInert` | MazeGame/MazeGame/key.cpp:17-30 | An unheld key makes no call, even when a matching door touches it. Only its tracked pose is refreshed. |
| `KeyMachine.UpdateTracksPose` | MazeGame/MazeGame/key.cpp:30 | On every path, the update ends with the box tracking the key's final pose. |
| `KeyMachine.GoAwayIdempotent` | MazeGame/MazeGame/key.cpp:33-36 | Two `GoAway` calls give the same state as one. The result does not depend on the prior transform. |
| `KeyMachine.NoPickupAtDropTick` | MazeGame/MazeGame/key.cpp:42-50 | At the tick of the drop, the key cannot be picked up. |
| `KeyMachine.PickupAfterDrop` | MazeGame/MazeGame/key.cpp:42-50 | `dt` ticks after a drop (`dt` below 2^32, across wrap-around), the key can be picked up iff `dt` is strictly greater than the cooldown. |
| `KeyMachine.DropTimeKept` | MazeGame/MazeGame/key.cpp:45 | A run with no `Drop` leaves the drop time as it was. Only `Drop` writes it. |
| `KeyMachine.CooldownAcrossRun` | MazeGame/MazeGame/key.cpp:42-50 | Take a key dropped at `t` and then put through any run without another drop. `dt` ticks after `t` it can be picked up iff `dt` exceeds the cooldown. |
| `KeyMachine.UnlocksNeedPickups` | MazeGame/MazeGame/key.cpp:16-40 | In any run, (doors sent away) + (1 if still held at the end) ≤ (1 if held at the start) + (holder assignments). Each unlock consumes a pickup, so a key opens at most one door per pickup. |
| `KeyMachine.UnheldKeyOpensNothing` | MazeGame/MazeGame/key.cpp:17-23 | An unheld key that nobody picks up sends no door away in any run, whatever the map reports. |
| `KeyMachine.OnlyFoundDoorsGoAway` | MazeGame/MazeGame/key.cpp:17-19 | In any run, every door sent away is one that the map returned for the key's own query. |
| `Ticks.Elapsed` | MazeGame/MazeGame/key.cpp:49 | Unsigned 32-bit `now - since`: the plain difference when `since <= now`, and the difference plus 2^32 when the counter has wrapped. |
| `Ticks.ElapsedAfterAdvance` | MazeGame/MazeGame/key.cpp:49 | `dt` ticks after any tick (`dt` below 2^32), the elapsed time reads exactly `dt`, including across wrap-around. |

## Left out

- `hellovr_opengl_main.cpp` and `vr_manager.h` are not part of this model. They hold window, input, VR runtime and OpenGL plumbing, which is all I/O and foreign calls.
- Floating-point transform maths is left out. Positions are reals and there are no matrices. `Rotate(M_PI / 2, (1, 0, 0))` becomes the tag `QuarterTurnX`, and a key with exactly that rotation lies flat.
- `Geometry.ResetAndSetTranslation`: the transform source is not part of this model. It is taken to discard earlier rotations as well as the translation; otherwise every drop would tilt the key further.
- `Geometry.InitBoundingBox`: the game-object source is not part of this model. The rebuilt box is taken to hang below the key's transform. The key always detaches it at once, so this choice is not observable.
- `Maze.Key.GameObjectUpdate`: the base game-object update is not part of this model. It is modelled only as "the box's world corners now follow the current pose" (the `tracked` field).
- `Maze.Map.IntersectsDoorWithId`: the map source is not part of this model. The query is modelled as a scan of the registered doors in order. Box intersection is the given `touching` relation, not computed geometry. Whether a gone door can still be returned is left to that relation.
- `Maze.Door.GoAway`: the door source is not part of this model. Going away is a `gone` flag rather than a move out of the maze.
- `Maze.Controller.UseKey`: the player source is not part of this model; `UseKey` only clears `heldKey`. The key's code types its holder as `Controller*`, and `player.h` declares `UseKey` and `held_key_`.
- The player's pickup rule, `DropKey`, movement physics and collision response are left out, because the player's implementation is not modelled. A pickup appears only as a `SetHolder` call or event. Nothing keeps the key's `holder` and the controller's `heldKey` in step; that is the player's job.
- `SDL_GetTicks` is replaced by a `now` parameter.
- `KEY_HEIGHT` and `KEY_DROP_PICKUP_COOLDOWN_MS` are declared without values, because the constants header is not part of this model.
- `drop_time_` is taken to be a 32-bit unsigned field, like the `SDL_GetTicks` value stored in it. The key header that declares it is not part of this model; a floating-point or 64-bit field would not wrap.
- `Maze.Key.constructor`: the base game-object constructor is not part of this model. It is taken to start the transform at the origin, unrotated and without a parent, so that the key ends at `pos`.
- `CallLog` records only the calls to `GoAway` and `UseKey`. That the holder is cleared after `UseKey` follows from `UseKey` being called through the holder.
- `drop_time_` starts with an unspecified value, and `holder_` is taken to start null. The key header, which would say, is not part of this model.
- The model pointer and rendering state of a game object are left out.
- Transforms and boxes are values stored in the key's fields, not shared objects. A parent is a handle, so aliasing between transforms in the scene hierarchy is not captured.
- The update order of objects within a frame, in the map's per-frame pass over all objects, is left out. Only one key's update is modelled, against the map state at the time of its query.
