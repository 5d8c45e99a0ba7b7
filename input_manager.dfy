/**
 * The input manager: a map from each registered physical key to whether it
 * is held down. Key events only update registered keys; processing turns
 * every held W, A, S or D key into one player-movement event with a fixed
 * direction. The map's iteration order is a parameter (see `Enumeration`).
 */
module Input {
  import opened Wrappers
  import opened Geometry
  import opened Enumeration

  datatype KeyCode = KeyW | KeyA | KeyS | KeyD | OtherCode(code: nat)

  /** A key by its position on the keyboard, or one the platform could not identify. */
  datatype PhysicalKey = Code(code: KeyCode) | Unidentified(native: nat)

  /** The direction a held key moves the player in; keys other than W, A, S, D move nothing. */
  function DirectionOf(key: PhysicalKey): Option<Vec3>
  {
    match key
    case Code(KeyW) => Some(Vec3(0.0, 0.0, 1.0))
    case Code(KeyA) => Some(Vec3(1.0, 0.0, 0.0))
    case Code(KeyS) => Some(Vec3(0.0, 0.0, -1.0))
    case Code(KeyD) => Some(Vec3(-1.0, 0.0, 0.0))
    case _ => None
  }

  /** The four keys that move the player. */
  const MovementKeys: set<PhysicalKey> := {Code(KeyW), Code(KeyA), Code(KeyS), Code(KeyD)}

  lemma MovementKeysAreExactlyTheDirected(key: PhysicalKey)
    ensures DirectionOf(key).Some? <==> key in MovementKeys
  {
  }

  /** A registered key event: the key takes the new state; other keys and the key set are untouched. */
  function KeyEventSpec(mappedKeys: map<PhysicalKey, bool>, key: PhysicalKey, action: bool): (m: map<PhysicalKey, bool>)
    ensures m.Keys == mappedKeys.Keys
    ensures key in mappedKeys ==> m[key] == action
    ensures forall k :: k in mappedKeys && k != key ==> m[k] == mappedKeys[k]
  {
    if key in mappedKeys then mappedKeys[key := action] else mappedKeys
  }

  /** The movement events `process` adds, visiting the keys in `order`. */
  function Movements(order: seq<PhysicalKey>, mappedKeys: map<PhysicalKey, bool>): (r: seq<Vec3>)
    requires forall i :: 0 <= i < |order| ==> order[i] in mappedKeys
    ensures |r| <= |order|
    ensures forall d :: d in r ==> exists k :: k in order && mappedKeys[k] && DirectionOf(k) == Some(d)
    ensures forall k :: k in order && mappedKeys[k] && DirectionOf(k).Some? ==> DirectionOf(k).value in r
  {
    if order == [] then []
    else
      var n := |order| - 1;
      var key := order[n];
      var rest := Movements(order[..n], mappedKeys);
      assert forall k :: k in order ==> k in order[..n] || k == key;
      if mappedKeys[key] && DirectionOf(key).Some? then rest + [DirectionOf(key).value] else rest
  }

  /** The held movement keys among the registered keys. */
  ghost function HeldMovementKeys(order: seq<PhysicalKey>, mappedKeys: map<PhysicalKey, bool>): set<PhysicalKey>
    requires forall i :: 0 <= i < |order| ==> order[i] in mappedKeys
  {
    set k | k in order && mappedKeys[k] && DirectionOf(k).Some?
  }

  /** Visiting one more key adds it to the held movement keys exactly when it is one and is held. */
  lemma HeldMovementKeysStep(prefix: seq<PhysicalKey>, key: PhysicalKey, mappedKeys: map<PhysicalKey, bool>)
    requires forall i :: 0 <= i < |prefix| ==> prefix[i] in mappedKeys
    requires key in mappedKeys
    ensures HeldMovementKeys(prefix + [key], mappedKeys)
      == HeldMovementKeys(prefix, mappedKeys) + (if mappedKeys[key] && DirectionOf(key).Some? then {key} else {})
  {
    var order := prefix + [key];
    forall k | k in HeldMovementKeys(order, mappedKeys)
      ensures k in HeldMovementKeys(prefix, mappedKeys) || k == key
    {
      assert k in prefix || k == key;
    }
  }

  /** With every key visited once, `process` adds exactly one event per held movement key. */
  lemma {:induction false} MovementsCountHeldKeys(order: seq<PhysicalKey>, mappedKeys: map<PhysicalKey, bool>)
    requires forall i :: 0 <= i < |order| ==> order[i] in mappedKeys
    requires forall i, j :: 0 <= i < j < |order| ==> order[i] != order[j]
    ensures |Movements(order, mappedKeys)| == |HeldMovementKeys(order, mappedKeys)|
  {
    if order != [] {
      var n := |order| - 1;
      var prefix := order[..n];
      MovementsCountHeldKeys(prefix, mappedKeys);
      assert order == prefix + [order[n]];
      HeldMovementKeysStep(prefix, order[n], mappedKeys);
      assert order[n] !in HeldMovementKeys(prefix, mappedKeys);
    }
  }

  lemma {:induction false} SubsetSize<T>(a: set<T>, b: set<T>)
    requires a <= b
    ensures |a| <= |b|
    decreases |b|
  {
    if a != {} {
      var x :| x in a;
      SubsetSize(a - {x}, b - {x});
    }
  }

  /** One `process` adds at most four movement events, whatever is held and in whatever order. */
  lemma AtMostFourMovements(order: seq<PhysicalKey>, mappedKeys: map<PhysicalKey, bool>)
    requires IsEnumeration(order, mappedKeys.Keys)
    ensures |Movements(order, mappedKeys)| <= 4
  {
    MovementsCountHeldKeys(order, mappedKeys);
    forall k | k in HeldMovementKeys(order, mappedKeys) ensures k in MovementKeys {
      MovementKeysAreExactlyTheDirected(k);
    }
    SubsetSize(HeldMovementKeys(order, mappedKeys), MovementKeys);
    assert |MovementKeys| == 4;
  }

  /** When no registered key is held, `process` adds nothing. */
  lemma {:induction false} NothingHeldNoMovement(order: seq<PhysicalKey>, mappedKeys: map<PhysicalKey, bool>)
    requires forall i :: 0 <= i < |order| ==> order[i] in mappedKeys && !mappedKeys[order[i]]
    ensures Movements(order, mappedKeys) == []
  {
    if order != [] {
      NothingHeldNoMovement(order[..|order| - 1], mappedKeys);
    }
  }

  class InputManager {
    var mappedKeys: map<PhysicalKey, bool>

    /** Registers every given key, each released. */
    constructor (keys: seq<PhysicalKey>)
      ensures mappedKeys.Keys == set k | k in keys
      ensures forall k :: k in mappedKeys ==> !mappedKeys[k]
    {
      var m := map[];
      for i := 0 to |keys|
        invariant m.Keys == set k | k in keys[..i]
        invariant forall k :: k in m ==> !m[k]
      {
        assert keys[..i + 1] == keys[..i] + [keys[i]];
        m := m[keys[i] := false];
      }
      assert keys[..|keys|] == keys;
      mappedKeys := m;
    }

    /** Records a key press or release, for registered keys only. */
    method KeyEvent(key: PhysicalKey, action: bool)
      modifies this
      ensures mappedKeys == KeyEventSpec(old(mappedKeys), key, action)
    {
      if key in mappedKeys {
        mappedKeys := mappedKeys[key := action];
      }
    }

    /**
     * The movement events added to the event manager, one per held W, A, S
     * or D key, in the order the keys are visited; the key map is only read.
     */
    method Process(order: seq<PhysicalKey>) returns (movements: seq<Vec3>)
      requires IsEnumeration(order, mappedKeys.Keys)
      ensures movements == Movements(order, mappedKeys)
    {
      movements := [];
      for i := 0 to |order|
        invariant movements == Movements(order[..i], mappedKeys)
      {
        assert order[..i + 1][..i] == order[..i];
        var key := order[i];
        var state := mappedKeys[key];
        if state {
          match key {
            case Code(KeyW) => movements := movements + [Vec3(0.0, 0.0, 1.0)];
            case Code(KeyA) => movements := movements + [Vec3(1.0, 0.0, 0.0)];
            case Code(KeyS) => movements := movements + [Vec3(0.0, 0.0, -1.0)];
            case Code(KeyD) => movements := movements + [Vec3(-1.0, 0.0, 0.0)];
            case _ =>
          }
        }
      }
      assert order[..|order|] == order;
    }
  }

  /** Holding W on a W/A/S/D map yields exactly the forward event, whatever the visiting order. */
  method HoldForwardScenario(order: seq<PhysicalKey>) returns (movements: seq<Vec3>)
    requires IsEnumeration(order, MovementKeys)
    ensures movements == [Vec3(0.0, 0.0, 1.0)]
  {
    var manager := new InputManager([Code(KeyW), Code(KeyA), Code(KeyS), Code(KeyD)]);
    manager.KeyEvent(Code(KeyW), true);
    manager.KeyEvent(Unidentified(7), true);
    assert manager.mappedKeys.Keys == MovementKeys;
    movements := manager.Process(order);
    MovementsCountHeldKeys(order, manager.mappedKeys);
    assert HeldMovementKeys(order, manager.mappedKeys) == {Code(KeyW)};
    assert Vec3(0.0, 0.0, 1.0) in movements;
    assert movements == [Vec3(0.0, 0.0, 1.0)];
  }
}
