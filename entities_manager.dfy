/**
 * The entity manager of components/entities: entities in a map keyed by a
 * counter `next_id`, and a buffer of commands for the renderer that
 * `process` hands over and empties.
 *
 * The map's iteration order is not fixed (a hash map); where it matters it
 * is a parameter `order` listing every key exactly once.
 */
module Entities {
  import opened Geometry
  import opened Enumeration
  import OldCube

  /** What to create: a player, or a cube with its texture path. */
  datatype EntityType =
    | PlayerEntityInfo(transform: Transform)
    | CubeEntityInfo(transform: Transform, texturePath: string)

  datatype PlayerEntity = PlayerEntity(id: nat, transform: Transform)

  datatype ManagedEntity = Player(player: PlayerEntity) | Cube(cube: OldCube.CubeEntity)

  datatype Command = CreateVulkanObject(objectId: nat, vertices: seq<Vertex>, transform: Transform, texturePath: string)

  /** The keys of player entities, in the order they are visited. */
  function PlayerKeys(order: seq<nat>, entities: map<nat, ManagedEntity>): (keys: seq<nat>)
    requires forall i :: 0 <= i < |order| ==> order[i] in entities
    ensures |keys| <= |order|
    ensures forall k :: k in keys <==> k in order && entities[k].Player?
  {
    if order == [] then []
    else
      var last := order[|order| - 1];
      PlayerKeys(order[..|order| - 1], entities) + (if entities[last].Player? then [last] else [])
  }

  class EntityManager {
    var entities: map<nat, ManagedEntity>
    var bufferedCommands: seq<Command>
    var nextId: nat

    /** Every live key lies below the counter, so the next key is free. */
    ghost predicate Valid()
      reads this
    {
      forall k :: k in entities ==> k < nextId
    }

    constructor ()
      ensures Valid()
      ensures entities == map[] && bufferedCommands == [] && nextId == 0
    {
      entities := map[];
      bufferedCommands := [];
      nextId := 0;
    }

    /**
     * Inserts the new entity under `next_id`, then increments `next_id` by one.
     * A player buffers nothing; a cube buffers one `CreateVulkanObject` with
     * its id, the cube model, its transform and its texture path.
     */
    method CreateEntity(info: EntityType)
      requires Valid()
      modifies this
      ensures Valid()
      ensures old(nextId) !in old(entities)
      ensures nextId == old(nextId) + 1
      ensures info.PlayerEntityInfo? ==>
        && entities == old(entities)[old(nextId) := Player(PlayerEntity(old(nextId), info.transform))]
        && bufferedCommands == old(bufferedCommands)
      ensures info.CubeEntityInfo? ==>
        var cube := OldCube.New(old(nextId), info.transform);
        && entities == old(entities)[old(nextId) := Cube(cube)]
        && bufferedCommands == old(bufferedCommands) +
             [CreateVulkanObject(old(nextId), cube.model, info.transform, info.texturePath)]
    {
      match info {
        case PlayerEntityInfo(transform) =>
          entities := entities[nextId := Player(PlayerEntity(nextId, transform))];
        case CubeEntityInfo(transform, texturePath) =>
          var cube := OldCube.New(nextId, transform);
          bufferedCommands := bufferedCommands + [CreateVulkanObject(nextId, OldCube.GetModel(cube), transform, texturePath)];
          entities := entities[nextId := Cube(cube)];
      }
      nextId := nextId + 1;
    }

    /** Removes the key if present; the command buffer and the counter are left alone. */
    method DeleteEntity(id: nat)
      requires Valid()
      modifies this
      ensures Valid()
      ensures entities == old(entities) - {id}
      ensures bufferedCommands == old(bufferedCommands) && nextId == old(nextId)
    {
      entities := entities - {id};
    }

    /**
     * The key of the `index`-th player met while visiting the map in `order`.
     * The source indexes the collected list, so that many players must exist.
     */
    method GetPlayerEntity(index: nat, order: seq<nat>) returns (key: nat)
      requires IsEnumeration(order, entities.Keys)
      requires index < |PlayerKeys(order, entities)|
      ensures key == PlayerKeys(order, entities)[index]
      ensures key in entities && entities[key].Player?
    {
      var playerEntityIds: seq<nat> := [];
      var i := 0;
      while i < |order|
        invariant 0 <= i <= |order|
        invariant playerEntityIds == PlayerKeys(order[..i], entities)
      {
        assert order[..i + 1][..i] == order[..i];
        if entities[order[i]].Player? {
          playerEntityIds := playerEntityIds + [order[i]];
        }
        i := i + 1;
      }
      assert order[..i] == order;
      key := playerEntityIds[index];
    }

    /** Hands over every buffered command, in push order, and leaves the buffer empty. */
    method Process() returns (commands: seq<Command>)
      modifies this
      ensures commands == old(bufferedCommands)
      ensures bufferedCommands == []
      ensures entities == old(entities) && nextId == old(nextId)
    {
      commands := bufferedCommands;
      bufferedCommands := [];
    }
  }

  /** A cube and a player created, then two calls to `process`: one command, then none. */
  method ProcessTwiceScenario(t: Transform, path: string) returns (first: seq<Command>, second: seq<Command>)
    ensures first == [CreateVulkanObject(0, OldCube.New(0, t).model, t, path)]
    ensures second == []
  {
    var manager := new EntityManager();
    manager.CreateEntity(CubeEntityInfo(t, path));
    manager.CreateEntity(PlayerEntityInfo(t));
    first := manager.Process();
    second := manager.Process();
    assert first == [CreateVulkanObject(0, OldCube.New(0, t).model, t, path)];
    assert second == [];
    assert manager.entities.Keys == {0, 1} && manager.nextId == 2;
  }
}
