/**
 * The key's state machine as pure functions on a snapshot of the key.
 * Each function is what one method of the Key class does to the key's own
 * fields; the calls the key makes on other objects during an update are
 * returned as a list of effects. `H` is the type of the holder and `D`
 * the type of the doors the map hands back.
 */
module KeyMachine {
  import opened Wrappers
  import opened Ticks
  import opened Geometry

  /** The height above the floor at which a key lies (its value is not part of this model). */
  const KEY_HEIGHT: real

  /** Milliseconds after a drop during which the key cannot be picked up again (its value is not part of this model). */
  const KEY_DROP_PICKUP_COOLDOWN_MS: u32

  /** Where a key that has gone away is kept: below the floor, outside the maze. */
  const GoneTranslation: Vec3 := Vec3(0.0, 0.0, -3.0)

  /** The only orientation a placed key has: one quarter turn about the x axis from upright, lying flat. */
  const LyingFlat: seq<Rotation> := [QuarterTurnX]

  /**
   * The key's fields: its holder, the tick of its last drop, its
   * transform, its bounding box, the corner points captured at
   * construction, and the pose its box's world corners were last
   * recomputed from by the base game-object update.
   */
  datatype KeyState<H> = KeyState(
    holder: Option<H>,
    dropTime: u32,
    transform: Transform,
    box: Box,
    cache: seq<Vertex>,
    tracked: Transform)

  /** A GoAway or UseKey call made during an update, recorded by the object that receives it. */
  datatype Effect<H, D> = DoorGoAway(door: D) | KeyGoAway | UseKey(holder: H)

  /** Places the key flat at KEY_HEIGHT over its current (x, y), unparented, with its box rebuilt from the cache. */
  function InitTransform<H>(k: KeyState<H>): (r: KeyState<H>)
    ensures r.transform == Transform(Vec3(k.transform.translation.x, k.transform.translation.y, KEY_HEIGHT), None, LyingFlat)
    ensures r.box == Box(k.cache, false)
    ensures r.(transform := k.transform, box := k.box) == k
  {
    var previousX, previousY := X(k.transform), Y(k.transform);
    var detached := ClearParent(k.transform);
    var placed := ResetAndSetTranslation(detached, Vec3(previousX, previousY, KEY_HEIGHT));
    var flat := Rotate(placed, QuarterTurnX);
    k.(transform := flat, box := ClearBoxParent(InitBoundingBox(k.cache)))
  }

  /** The transform of a key that has gone away, whatever it was before. */
  const Gone: Transform := Transform(GoneTranslation, None, [])

  /** Sends the key out of the maze: unparented, unrotated, at GoneTranslation; nothing else changes. */
  function GoAway<H>(k: KeyState<H>): (r: KeyState<H>)
    ensures r.transform == Gone
    ensures r.(transform := k.transform) == k
  {
    k.(transform := ResetAndSetTranslation(ClearParent(k.transform), GoneTranslation))
  }

  /** Assigns the holder and touches nothing else. */
  function SetHolder<H>(k: KeyState<H>, h: Option<H>): (r: KeyState<H>)
    ensures r.holder == h
    ensures r.(holder := k.holder) == k
  {
    k.(holder := h)
  }

  /** Releases the key at tick `now`: no holder, placed flat where it is, drop time `now`. */
  function Drop<H>(k: KeyState<H>, now: u32): (r: KeyState<H>)
    ensures r.holder == None && r.dropTime == now
    ensures r.transform.translation.x == k.transform.translation.x
    ensures r.transform.translation.y == k.transform.translation.y
    ensures r.transform.translation.z == KEY_HEIGHT
    ensures r.transform.parent == None && r.transform.rotations == LyingFlat
    ensures r.box == Box(k.cache, false)
    ensures r.cache == k.cache && r.tracked == k.tracked
  {
    InitTransform(k.(holder := None)).(dropTime := now)
  }

  /** The pickup gate: strictly more than the cooldown has elapsed (in unsigned 32-bit ticks) since the drop. */
  predicate CanBePickedUp<H>(k: KeyState<H>, now: u32)
    ensures k.dropTime <= now ==>
      (CanBePickedUp(k, now) <==> now as int - k.dropTime as int > KEY_DROP_PICKUP_COOLDOWN_MS as int)
    ensures now < k.dropTime ==>
      (CanBePickedUp(k, now) <==> now as int - k.dropTime as int + TicksModulus > KEY_DROP_PICKUP_COOLDOWN_MS as int)
  {
    Elapsed(k.dropTime, now) > KEY_DROP_PICKUP_COOLDOWN_MS
  }

  /** Whether an update that found `door` performs the unlock. */
  predicate Unlocks<H, D>(k: KeyState<H>, door: Option<D>) {
    k.holder.Some? && door.Some?
  }

  /**
   * One update of the key, given the door (if any) that the map reported
   * for the key's id: the unlock when held and a door was found, then the
   * box refresh when still held, then the base update.
   */
  function Update<H, D>(k: KeyState<H>, door: Option<D>): (r: KeyState<H>)
    ensures r.holder == if Unlocks(k, door) then None else k.holder
    ensures r.transform == if Unlocks(k, door) then Gone else k.transform
    ensures r.box == if r.holder.Some? then Box(k.cache, false) else k.box
    ensures r.tracked == r.transform
    ensures r.dropTime == k.dropTime && r.cache == k.cache
  {
    var afterUnlock := if Unlocks(k, door) then GoAway(k).(holder := None) else k;
    var afterRefresh :=
      if afterUnlock.holder.Some? then afterUnlock.(box := ClearBoxParent(InitBoundingBox(afterUnlock.cache)))
      else afterUnlock;
    afterRefresh.(tracked := afterRefresh.transform)
  }

  /**
   * The calls one update makes, in the order it makes them. The holder is
   * cleared after the last of them, since UseKey is called through it.
   */
  function UpdateEffects<H, D>(k: KeyState<H>, door: Option<D>): (r: seq<Effect<H, D>>)
    ensures r != [] <==> Unlocks(k, door)
    ensures forall c | c in r && c.DoorGoAway? :: door == Some(c.door)
    ensures forall c | c in r && c.UseKey? :: k.holder == Some(c.holder)
  {
    if Unlocks(k, door) then [DoorGoAway(door.value), KeyGoAway, UseKey(k.holder.value)] else []
  }

  /**
   * Unlock transaction: held key, door found; the door, then the key go
   * away, then the holder is told, the holder is cleared, and the box is
   * not refreshed.
   */
  lemma UnlockTransaction<H, D>(k: KeyState<H>, d: D)
    requires k.holder.Some?
    ensures var r := Update(k, Some(d));
      && r.holder == None
      && r.transform == Gone
      && r.box == k.box
      && r.tracked == Gone
      && r.dropTime == k.dropTime && r.cache == k.cache
    ensures UpdateEffects(k, Some(d)) == [DoorGoAway(d), KeyGoAway, UseKey(k.holder.value)]
  {
  }

  /** Held key, no door found: holder and pose kept, box rebuilt from the cache and unparented, no calls. */
  lemma HeldWithoutDoor<H, D>(k: KeyState<H>)
    requires k.holder.Some?
    ensures var r := Update<H, D>(k, None);
      && r.holder == k.holder
      && r.transform == k.transform
      && r.box == Box(k.cache, false)
      && r.tracked == k.transform
      && r.dropTime == k.dropTime && r.cache == k.cache
    ensures UpdateEffects<H, D>(k, None) == []
  {
  }

  /** Id gating from the key's side: an unheld key makes no call and only refreshes its tracked pose, door or no door. */
  lemma UnheldUpdateIsInert<H, D>(k: KeyState<H>, door: Option<D>)
    requires k.holder.None?
    ensures Update(k, door) == k.(tracked := k.transform)
    ensures UpdateEffects(k, door) == []
  {
  }

  /** The base update runs on every path: afterwards the box is tracked against the key's current pose. */
  lemma UpdateTracksPose<H, D>(k: KeyState<H>, door: Option<D>)
    ensures Update(k, door).tracked == Update(k, door).transform
  {
  }

  /** GoAway is idempotent, and the state it leaves does not depend on the transform before it. */
  lemma GoAwayIdempotent<H>(k: KeyState<H>, other: Transform)
    ensures GoAway(GoAway(k)) == GoAway(k)
    ensures GoAway(k.(transform := other)) == GoAway(k)
  {
  }

  /** Strict cooldown: at the very tick of a drop the key cannot be picked up. */
  lemma NoPickupAtDropTick<H>(k: KeyState<H>, now: u32)
    ensures !CanBePickedUp(Drop(k, now), now)
  {
  }

  /** `dt` ticks after a drop (dt below 2^32), the key can be picked up exactly when dt exceeds the cooldown. */
  lemma PickupAfterDrop<H>(k: KeyState<H>, t: u32, dt: nat)
    requires dt < TicksModulus
    ensures CanBePickedUp(Drop(k, t), Advance(t, dt)) <==> dt > KEY_DROP_PICKUP_COOLDOWN_MS as int
  {
  }

  // ---------------------------------------------------------------------
  // Runs: the key driven through any sequence of its operations.

  /** One call made on the key from outside: by its holder, by the map's per-frame update, or its own GoAway. */
  datatype Event<H, D> = SetHolderEvent(h: Option<H>) | DropEvent(now: u32) | UpdateEvent(door: Option<D>) | GoAwayEvent

  function Step<H, D>(k: KeyState<H>, e: Event<H, D>): KeyState<H> {
    match e
    case SetHolderEvent(h) => SetHolder(k, h)
    case DropEvent(now) => Drop(k, now)
    case UpdateEvent(door) => Update(k, door)
    case GoAwayEvent => GoAway(k)
  }

  function StepEffects<H, D>(k: KeyState<H>, e: Event<H, D>): seq<Effect<H, D>> {
    if e.UpdateEvent? then UpdateEffects(k, e.door) else []
  }

  function Run<H, D>(k: KeyState<H>, es: seq<Event<H, D>>): KeyState<H>
    decreases |es|
  {
    if es == [] then k else Run(Step(k, es[0]), es[1..])
  }

  /** All calls a run makes on other objects, in order. */
  function RunEffects<H, D>(k: KeyState<H>, es: seq<Event<H, D>>): seq<Effect<H, D>>
    decreases |es|
  {
    if es == [] then [] else StepEffects(k, es[0]) + RunEffects(Step(k, es[0]), es[1..])
  }

  predicate NoDrop<H, D>(es: seq<Event<H, D>>) {
    forall i | 0 <= i < |es| :: !es[i].DropEvent?
  }

  /** The number of times a holder is assigned (a pickup). */
  function Pickups<H, D>(es: seq<Event<H, D>>): nat
    decreases |es|
  {
    if es == [] then 0 else (if es[0].SetHolderEvent? && es[0].h.Some? then 1 else 0) + Pickups(es[1..])
  }

  /** The number of doors sent away. */
  function UnlockCount<H, D>(effects: seq<Effect<H, D>>): nat
    decreases |effects|
  {
    if effects == [] then 0 else (if effects[0].DoorGoAway? then 1 else 0) + UnlockCount(effects[1..])
  }

  function Held<H>(k: KeyState<H>): nat {
    if k.holder.Some? then 1 else 0
  }

  /** The doors a run's map queries returned. */
  ghost function DoorsFound<H, D>(es: seq<Event<H, D>>): set<D> {
    set e | e in es && e.UpdateEvent? && e.door.Some? :: e.door.value
  }

  /** The doors sent away. */
  ghost function DoorsSentAway<H, D>(effects: seq<Effect<H, D>>): set<D> {
    set c | c in effects && c.DoorGoAway? :: c.door
  }

  lemma {:induction false} UnlocksAppend<H, D>(a: seq<Effect<H, D>>, b: seq<Effect<H, D>>)
    ensures UnlockCount(a + b) == UnlockCount(a) + UnlockCount(b)
    decreases |a|
  {
    if a != [] {
      assert (a + b)[1..] == a[1..] + b;
      UnlocksAppend(a[1..], b);
    } else {
      assert a + b == b;
    }
  }

  lemma {:induction false} NoUnlocksNoDoors<H, D>(effects: seq<Effect<H, D>>)
    requires UnlockCount(effects) == 0
    ensures DoorsSentAway(effects) == {}
    decreases |effects|
  {
    if effects != [] {
      NoUnlocksNoDoors(effects[1..]);
      assert effects == [effects[0]] + effects[1..];
    }
  }

  /** Without a drop, a run leaves the drop time as it was: no other operation writes it. */
  lemma {:induction false} DropTimeKept<H, D>(k: KeyState<H>, es: seq<Event<H, D>>)
    requires NoDrop(es)
    ensures Run(k, es).dropTime == k.dropTime
    decreases |es|
  {
    if es != [] {
      assert !es[0].DropEvent?;
      assert NoDrop(es[1..]) by {
        forall i | 0 <= i < |es[1..]| ensures !es[1..][i].DropEvent? {
          assert es[1..][i] == es[i + 1];
        }
      }
      DropTimeKept(Step(k, es[0]), es[1..]);
    }
  }

  /**
   * The cooldown across any later operations: if the key is dropped at `t`
   * and then driven through `es` with no further drop, it can be picked up
   * `dt` ticks after `t` exactly when dt exceeds the cooldown.
   */
  lemma CooldownAcrossRun<H, D>(k: KeyState<H>, t: u32, es: seq<Event<H, D>>, dt: nat)
    requires NoDrop(es) && dt < TicksModulus
    ensures CanBePickedUp(Run(Drop(k, t), es), Advance(t, dt)) <==> dt > KEY_DROP_PICKUP_COOLDOWN_MS as int
  {
    DropTimeKept(Drop(k, t), es);
    ElapsedAfterAdvance(t, dt);
  }

  /**
   * Every unlock consumes a pickup: the doors sent away in a run, plus one
   * if the key is still held at the end, never exceed one for a key held
   * at the start plus the number of pickups.
   */
  lemma {:induction false} UnlocksNeedPickups<H, D>(k: KeyState<H>, es: seq<Event<H, D>>)
    ensures UnlockCount(RunEffects(k, es)) + Held(Run(k, es)) <= Held(k) + Pickups(es)
    decreases |es|
  {
    if es != [] {
      var k' := Step(k, es[0]);
      UnlocksNeedPickups(k', es[1..]);
      UnlocksAppend(StepEffects(k, es[0]), RunEffects(k', es[1..]));
      var first := StepEffects(k, es[0]);
      if es[0].UpdateEvent? && Unlocks(k, es[0].door) {
        assert UnlockCount(first) == 1 by {
          var rest := first[1..];
          assert UnlockCount(rest[1..][1..]) == 0;
          assert UnlockCount(rest[1..]) == 0;
          assert UnlockCount(rest) == 0;
        }
      } else {
        assert first == [];
      }
    }
  }

  /** An unheld key that nobody picks up never sends a door away, whatever the map reports. */
  lemma UnheldKeyOpensNothing<H, D>(k: KeyState<H>, es: seq<Event<H, D>>)
    requires k.holder.None? && Pickups(es) == 0
    ensures DoorsSentAway(RunEffects(k, es)) == {}
  {
    UnlocksNeedPickups(k, es);
    NoUnlocksNoDoors(RunEffects(k, es));
  }

  /** Id gating across a run: only a door that the map returned for the key's own query is ever sent away. */
  lemma {:induction false} OnlyFoundDoorsGoAway<H, D>(k: KeyState<H>, es: seq<Event<H, D>>)
    ensures DoorsSentAway(RunEffects(k, es)) <= DoorsFound(es)
    decreases |es|
  {
    if es != [] {
      var k' := Step(k, es[0]);
      OnlyFoundDoorsGoAway(k', es[1..]);
      var first := StepEffects(k, es[0]);
      assert DoorsSentAway(first + RunEffects(k', es[1..])) == DoorsSentAway(first) + DoorsSentAway(RunEffects(k', es[1..]));
      assert DoorsFound(es) == DoorsFound([es[0]]) + DoorsFound(es[1..]) by {
        assert es == [es[0]] + es[1..];
      }
      if es[0].UpdateEvent? && Unlocks(k, es[0].door) {
        assert DoorsSentAway(first) == {es[0].door.value};
      } else {
        assert first == [];
      }
    }
  }
}
