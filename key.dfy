/**
 * The key as a game object whose methods update it in place, beside the
 * objects it acts on during an update: the doors, the controller that
 * holds it, and the map that answers which door of a given id it touches.
 * Each Key method is proved to change the key's fields exactly as the
 * matching function of KeyMachine says.
 */
module Maze {
  import opened Wrappers
  import opened Ticks
  import opened Geometry
  import KeyMachine

  /**
   * A record, kept for proof only, of the GoAway and UseKey calls that
   * doors, keys and controllers receive, in the order they receive them.
   */
  class CallLog {
    ghost var calls: seq<KeyMachine.Effect<Controller, Door>>

    constructor ()
      ensures calls == []
    {
      calls := [];
    }
  }

  /** A door: it carries the id of the keys that open it, and goes away for good once opened. */
  class Door {
    const id: char
    var gone: bool

    constructor (id: char)
      ensures this.id == id && !gone
    {
      this.id := id;
      gone := false;
    }

    /** Removes the door from the maze; calling it again changes nothing more. */
    method GoAway(ghost log: CallLog)
      modifies this, log
      ensures gone
      ensures log.calls == old(log.calls) + [KeyMachine.DoorGoAway(this)]
    {
      gone := true;
      log.calls := log.calls + [KeyMachine.DoorGoAway(this)];
    }
  }

  /** The player's controller, as far as a key sees it: the key it holds, if any. */
  class Controller {
    var heldKey: Key?

    constructor ()
      ensures heldKey == null
    {
      heldKey := null;
    }

    /** Forgets the held key once it has opened its door; harmless when no key is held. */
    method UseKey(ghost log: CallLog)
      modifies this, log
      ensures heldKey == null
      ensures log.calls == old(log.calls) + [KeyMachine.UseKey(this)]
    {
      heldKey := null;
      log.calls := log.calls + [KeyMachine.UseKey(this)];
    }
  }

  /**
   * The map, as far as a key queries it: its doors in registration order,
   * and which door/key pairs have intersecting bounding boxes at present
   * (the geometry that decides this is not part of this model).
   */
  class Map {
    var doors: seq<Door>
    var touching: set<(Door, Key)>

    constructor (doors: seq<Door>)
      ensures this.doors == doors && touching == {}
    {
      this.doors := doors;
      touching := {};
    }

    predicate Matches(d: Door, obj: Key, id: char)
      reads this
    {
      d.id == id && (d, obj) in touching
    }

    /** The index of the first door from `from` on that has id `id` and touches `obj`; |doors| if there is none. */
    ghost function FirstMatchIndex(obj: Key, id: char, from: nat): (j: nat)
      reads this
      requires from <= |doors|
      ensures from <= j <= |doors|
      ensures j < |doors| ==> Matches(doors[j], obj, id)
      ensures forall m | from <= m < j :: !Matches(doors[m], obj, id)
      decreases |doors| - from
    {
      if from == |doors| || Matches(doors[from], obj, id) then from else FirstMatchIndex(obj, id, from + 1)
    }

    /** The first registered door with id `id` that touches `obj`, or null. */
    ghost function FirstMatch(obj: Key, id: char): (d: Door?)
      reads this
      ensures d != null ==> d in doors && d.id == id && (d, obj) in touching
      ensures d == null ==> forall x | x in doors :: !Matches(x, obj, id)
    {
      var j := FirstMatchIndex(obj, id, 0);
      if j < |doors| then doors[j] else null
    }

    /** Scans the doors in registration order for the first one with id `id` that touches `obj`. */
    method IntersectsDoorWithId(obj: Key, id: char) returns (door: Door?)
      ensures door == FirstMatch(obj, id)
      ensures door != null ==> door in doors && door.id == id && (door, obj) in touching
      ensures door == null ==> forall i | 0 <= i < |doors| :: doors[i].id != id || (doors[i], obj) !in touching
    {
      var i := 0;
      while i < |doors|
        invariant 0 <= i <= |doors|
        invariant FirstMatchIndex(obj, id, i) == FirstMatchIndex(obj, id, 0)
      {
        if Matches(doors[i], obj, id) {
          return doors[i];
        }
        i := i + 1;
      }
      return null;
    }
  }

  class Key {
    const id: char
    const maze: Map
    /** The corner points of the key's bounding box, captured before the key was first moved. */
    const boxVertices: seq<Vertex>
    var holder: Controller?
    var dropTime: u32
    var transform: Transform
    var box: Box
    /** The pose the bounding box's world corners were last recomputed from. */
    var tracked: Transform

    function State(): KeyMachine.KeyState<Controller>
      reads this
    {
      KeyMachine.KeyState(if holder == null then None else Some(holder as Controller), dropTime, transform, box, boxVertices, tracked)
    }

    /** The door the map reports for this key's own id, if any. */
    ghost function DoorFound(): Option<Door>
      reads maze
    {
      var d := maze.FirstMatch(this, id);
      if d == null then None else Some(d)
    }

    /**
     * A key with id `id` at maze position `pos`, whose model's bounding box
     * has corners `modelBox`: unheld, lying flat at KEY_HEIGHT over `pos`.
     */
    constructor (maze: Map, id: char, modelBox: seq<Vertex>, pos: (real, real))
      ensures this.maze == maze && this.id == id && boxVertices == modelBox
      ensures holder == null
      ensures transform == Transform(Vec3(pos.0, pos.1, KeyMachine.KEY_HEIGHT), None, KeyMachine.LyingFlat)
      ensures box == Box(modelBox, false)
    {
      this.id := id;
      this.maze := maze;
      holder := null;
      transform := Identity;
      box := Box(modelBox, true);
      boxVertices := modelBox;
      new;
      transform := Translate(transform, Vec3(pos.0, pos.1, 0.0));
      InitTransform();
    }

    /**
     * One frame of the key: the unlock transaction when it is held and
     * touches a door of its id, else the refresh of its box while held,
     * then the base game-object update. The objects that receive its
     * GoAway and UseKey calls record them in `log`.
     */
    method Update(ghost log: CallLog)
      modifies this, maze.doors, holder, log
      ensures State() == KeyMachine.Update(old(State()), DoorFound())
      ensures log.calls == old(log.calls) + KeyMachine.UpdateEffects(old(State()), DoorFound())
      ensures old(holder) != null && DoorFound().Some? ==> DoorFound().value.gone && old(holder).heldKey == null
      ensures old(holder) != null && DoorFound().None? ==> unchanged(old(holder))
      ensures forall d | d in maze.doors && d.id != id :: d.gone == old(d.gone)
      ensures forall d | d in maze.doors && (old(holder) == null || DoorFound() != Some(d)) :: d.gone == old(d.gone)
    {
      var door := maze.IntersectsDoorWithId(this, id);
      if holder != null && door != null {
        door.GoAway(log);
        GoAway(log);
        holder.UseKey(log);
        holder := null;
      }

      if holder != null {
        box := InitBoundingBox(boxVertices);
        box := ClearBoxParent(box);
      }

      GameObjectUpdate();
    }

    /** The base game-object update: the bounding box's world corners follow the current pose. */
    method GameObjectUpdate()
      modifies this
      ensures State() == old(State()).(tracked := old(transform))
    {
      tracked := transform;
    }

    method GoAway(ghost log: CallLog)
      modifies this, log
      ensures State() == KeyMachine.GoAway(old(State()))
      ensures log.calls == old(log.calls) + [KeyMachine.KeyGoAway]
    {
      transform := ClearParent(transform);
      transform := ResetAndSetTranslation(transform, KeyMachine.GoneTranslation);
      log.calls := log.calls + [KeyMachine.KeyGoAway];
    }

    method SetHolder(player: Controller?)
      modifies this`holder
      ensures State() == KeyMachine.SetHolder(old(State()), if player == null then None else Some(player as Controller))
    {
      holder := player;
    }

    method Drop(now: u32)
      modifies this
      ensures State() == KeyMachine.Drop(old(State()), now)
    {
      holder := null;
      InitTransform();
      dropTime := now;
    }

    /** Whether strictly more than the cooldown has passed since the last drop, counted in unsigned 32-bit ticks. */
    method CanBePickedUp(now: u32) returns (ok: bool)
      ensures ok == KeyMachine.CanBePickedUp(State(), now)
      ensures dropTime <= now ==> (ok <==> now as int - dropTime as int > KeyMachine.KEY_DROP_PICKUP_COOLDOWN_MS as int)
      ensures now < dropTime ==> (ok <==> now as int - dropTime as int + TicksModulus > KeyMachine.KEY_DROP_PICKUP_COOLDOWN_MS as int)
    {
      ok := Elapsed(dropTime, now) > KeyMachine.KEY_DROP_PICKUP_COOLDOWN_MS;
    }

    method InitTransform()
      modifies this
      ensures State() == KeyMachine.InitTransform(old(State()))
    {
      var previousX, previousY := X(transform), Y(transform);
      transform := ClearParent(transform);
      transform := ResetAndSetTranslation(transform, Vec3(previousX, previousY, KeyMachine.KEY_HEIGHT));
      transform := Rotate(transform, QuarterTurnX);
      box := InitBoundingBox(boxVertices);
      box := ClearBoxParent(box);
    }
  }
}
