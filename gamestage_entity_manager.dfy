/**
 * The game-stage entity manager: entities in a list. A new entity takes the
 * id of the LAST entity in the list (0 when the list is empty), so, starting
 * from an empty list, every entity ever created has id 0 and a lookup by id
 * can only ever reach the first entity.
 */
module Gamestage {
  import opened Wrappers
  import opened Geometry

  /**
   * An entity of the game stage: a player, or an entity of any other kind
   * (the entity trait is open; only the player is defined alongside it).
   */
  datatype StageEntity =
    | PlayerEntity(id: nat, transform: Transform)
    | OtherEntity(id: nat, transform: Transform)

  /** What `create_from_info` builds from, for each kind. */
  datatype CreateInfo =
    | PlayerEntityCreateInfo(transform: Transform)
    | OtherEntityCreateInfo(transform: Transform)

  /** `create_from_info(id)`: an entity of the info's kind, with that id and the info's transform. */
  function CreateFromInfo(info: CreateInfo, id: nat): (e: StageEntity)
    ensures e.id == id && e.transform == info.transform
    ensures e.PlayerEntity? <==> info.PlayerEntityCreateInfo?
  {
    match info
    case PlayerEntityCreateInfo(t) => PlayerEntity(id, t)
    case OtherEntityCreateInfo(t) => OtherEntity(id, t)
  }

  /** The id `create_entity` picks: 0 for an empty list, else the last entity's id. */
  function UnreservedId(entities: seq<StageEntity>): (id: nat)
    ensures entities == [] ==> id == 0
    ensures entities != [] ==> id == entities[|entities| - 1].id
    ensures AllIdsZero(entities) ==> id == 0
  {
    if |entities| <= 0 then 0 else entities[|entities| - 1].id
  }

  predicate AllIdsZero(entities: seq<StageEntity>)
  {
    forall i :: 0 <= i < |entities| ==> entities[i].id == 0
  }

  /** The list after creating from each info in turn, starting empty. */
  function CreateAll(infos: seq<CreateInfo>): seq<StageEntity>
  {
    if infos == [] then []
    else
      var before := CreateAll(infos[..|infos| - 1]);
      before + [CreateFromInfo(infos[|infos| - 1], UnreservedId(before))]
  }

  /** One creation keeps "every id is 0": the copied id is 0 or, for an empty list, 0 itself. */
  lemma CreateKeepsIdsZero(entities: seq<StageEntity>, info: CreateInfo)
    requires AllIdsZero(entities)
    ensures AllIdsZero(entities + [CreateFromInfo(info, UnreservedId(entities))])
  {
  }

  /** Any sequence of creations from an empty list gives one entity per info, all with id 0. */
  lemma {:induction false} CreateAllIdsZero(infos: seq<CreateInfo>)
    ensures |CreateAll(infos)| == |infos|
    ensures AllIdsZero(CreateAll(infos))
  {
    if infos != [] {
      var before := CreateAll(infos[..|infos| - 1]);
      CreateAllIdsZero(infos[..|infos| - 1]);
      CreateKeepsIdsZero(before, infos[|infos| - 1]);
    }
  }

  /** The position of the first entity with id `id` at or after `from`, if any. */
  function FindById(entities: seq<StageEntity>, id: nat, from: nat): (r: Option<nat>)
    requires from <= |entities|
    decreases |entities| - from
    ensures r.Some? ==> from <= r.value < |entities| && entities[r.value].id == id
    ensures r.Some? ==> forall j :: from <= j < r.value ==> entities[j].id != id
    ensures r.None? <==> forall j :: from <= j < |entities| ==> entities[j].id != id
  {
    if from == |entities| then None
    else if entities[from].id == id then Some(from)
    else FindById(entities, id, from + 1)
  }

  /** With every id 0, looking up 0 finds the first entity and any other id finds nothing. */
  lemma LookupReachesOnlyFirst(entities: seq<StageEntity>, id: nat)
    requires AllIdsZero(entities) && entities != []
    ensures FindById(entities, id, 0) == if id == 0 then Some(0) else None
  {
  }

  /** The positions of the player entities, in list order; every player is listed. */
  function PlayerIndices(entities: seq<StageEntity>): (r: seq<nat>)
    ensures forall k :: 0 <= k < |r| ==> r[k] < |entities| && entities[r[k]].PlayerEntity?
    ensures forall k, l :: 0 <= k < l < |r| ==> r[k] < r[l]
    ensures forall i :: 0 <= i < |entities| && entities[i].PlayerEntity? ==> i in r
  {
    if entities == [] then []
    else
      var n := |entities| - 1;
      PlayerIndices(entities[..n]) + (if entities[n].PlayerEntity? then [n] else [])
  }

  class EntityManager {
    var entities: seq<StageEntity>

    constructor ()
      ensures entities == []
    {
      entities := [];
    }

    /** Every entity created through the manager has id 0. */
    ghost predicate Valid()
      reads this
    {
      AllIdsZero(entities)
    }

    /** Appends exactly one entity, built with the id of the last entity (0 if none). */
    method CreateEntity(info: CreateInfo)
      requires Valid()
      modifies this
      ensures Valid()
      ensures entities == old(entities) + [CreateFromInfo(info, UnreservedId(old(entities)))]
      ensures old(entities) == [] ==> entities == [CreateFromInfo(info, 0)]
      ensures entities[|entities| - 1].id == 0
    {
      var unreservedId: nat := if |entities| <= 0 then 0 else entities[|entities| - 1].id;
      var entity := CreateFromInfo(info, unreservedId);
      entities := entities + [entity];
    }

    /** `get_player_entities`: the player entities (by position), in list order. */
    function GetPlayerEntities(): (players: seq<nat>)
      reads this
      ensures forall k :: k in players <==> 0 <= k < |entities| && entities[k].PlayerEntity?
      ensures forall i, j :: 0 <= i < j < |players| ==> players[i] < players[j]
    {
      PlayerIndices(entities)
    }

    /**
     * Replaces the transform of the first entity whose id matches; the source
     * unwraps the search, so one must exist. Every other entity is unchanged.
     */
    method ModifyEntityTransform(entityId: nat, newTransform: Transform)
      requires FindById(entities, entityId, 0).Some?
      modifies this
      ensures old(Valid()) ==> Valid()
      ensures var k := FindById(old(entities), entityId, 0).value;
        entities == old(entities)[k := old(entities)[k].(transform := newTransform)]
    {
      var es := entities;
      var i := 0;
      while i < |es| && es[i].id != entityId
        invariant 0 <= i <= |es|
        invariant forall j :: 0 <= j < i ==> es[j].id != entityId
      {
        i := i + 1;
      }
      entities := es[i := es[i].(transform := newTransform)];
    }
  }
}
