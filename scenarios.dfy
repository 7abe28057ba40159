/**
 * Client code that drives the key through the frames of three play
 * situations, using nothing but the contracts of the Maze classes.
 */
module Scenarios {
  import opened Wrappers
  import opened Ticks
  import opened Geometry
  import KeyMachine
  import opened Maze

  /** A held key touching the door of its own id opens it in one update and leaves the player's hand empty. */
  method HeldKeyOpensMatchingDoor(modelBox: seq<Vertex>) {
    var door := new Door('3');
    var maze := new Map([door]);
    var key := new Key(maze, '3', modelBox, (10.0, 0.0));
    var player := new Controller();
    key.SetHolder(player);
    player.heldKey := key;
    maze.touching := {(door, key)};
    assert maze.FirstMatchIndex(key, '3', 0) == 0;

    var log := new CallLog();
    key.Update(log);
    assert door.gone;
    assert player.heldKey == null;
    assert key.holder == null;
    assert key.transform == KeyMachine.Gone;
    assert log.calls == [KeyMachine.DoorGoAway(door), KeyMachine.KeyGoAway, KeyMachine.UseKey(player)];
  }

  /** A held key touching only a door of another id changes neither the door nor who holds the key. */
  method HeldKeyIgnoresOtherDoor(modelBox: seq<Vertex>) {
    var door := new Door('2');
    var maze := new Map([door]);
    var key := new Key(maze, '1', modelBox, (0.0, 0.0));
    var player := new Controller();
    key.SetHolder(player);
    player.heldKey := key;
    maze.touching := {(door, key)};

    var log := new CallLog();
    key.Update(log);
    assert !door.gone;
    assert key.holder == player && player.heldKey == key;
    assert log.calls == [];
  }

  /** A key dropped at tick `t` cannot be picked up at `t`, and can be once more than the cooldown has passed. */
  method DroppedKeyCoolsDown(modelBox: seq<Vertex>, t: u32)
    requires KeyMachine.KEY_DROP_PICKUP_COOLDOWN_MS as int + 1 < TicksModulus
  {
    var maze := new Map([]);
    var key := new Key(maze, '1', modelBox, (0.0, 0.0));
    var player := new Controller();
    key.SetHolder(player);
    key.Drop(t);
    assert key.holder == null;

    var early := key.CanBePickedUp(t);
    assert !early;

    var dt := KeyMachine.KEY_DROP_PICKUP_COOLDOWN_MS as int + 1;
    ElapsedAfterAdvance(t, dt);
    var late := key.CanBePickedUp(Advance(t, dt));
    assert late;
  }
}
