/**
 * The entity repository: entities keyed by an id drawn from a counter that
 * only ever goes up. `add_entity` hands back the counter AFTER incrementing
 * it, which is one more than the key the entity was stored under.
 */
module Repository {
  import opened BaseEntities

  class EntityRepository {
    var entities: map<nat, BoxedEntity>
    var unusedId: nat
    /** Every key handed out so far, including those since removed. */
    ghost var issued: set<nat>

    /** The keys handed out are exactly those below the counter; live keys were all handed out. */
    ghost predicate Valid()
      reads this
    {
      && (forall k: nat :: k in issued <==> k < unusedId)
      && entities.Keys <= issued
    }

    constructor ()
      ensures Valid()
      ensures entities == map[] && unusedId == 0 && issued == {}
    {
      entities := map[];
      unusedId := 0;
      issued := {};
    }

    /**
     * Stores `entity` under the current counter, then increments the counter
     * and returns its new value. The key used was never handed out before.
     */
    method AddEntity(entity: BoxedEntity) returns (id: nat)
      requires Valid()
      modifies this
      ensures Valid()
      ensures entities == old(entities)[old(unusedId) := entity]
      ensures unusedId == old(unusedId) + 1
      ensures id == unusedId && id == old(unusedId) + 1
      ensures old(unusedId) !in old(issued) && issued == old(issued) + {old(unusedId)}
    {
      entities := entities[unusedId := entity];
      issued := issued + {unusedId};
      unusedId := unusedId + 1;
      id := unusedId;
    }

    /** Deletes the key if present; otherwise a no-op. The counter is left alone. */
    method RemoveEntity(id: nat)
      requires Valid()
      modifies this
      ensures Valid()
      ensures entities == old(entities) - {id}
      ensures unusedId == old(unusedId) && issued == old(issued)
    {
      entities := entities - {id};
    }

    /** The entity stored under `id`; the source unwraps, so the id must be present. */
    method GetEntity(id: nat) returns (entity: BoxedEntity)
      requires id in entities
      ensures entity == entities[id]
    {
      entity := entities[id];
    }
  }

  /** Two successive adds use distinct, increasing keys, and a removed key is not reused. */
  method AddRemoveAddScenario(first: BoxedEntity, second: BoxedEntity) returns (a: nat, b: nat)
    ensures a == 1 && b == 2
  {
    var repository := new EntityRepository();
    a := repository.AddEntity(first);
    repository.RemoveEntity(a - 1);
    assert repository.entities == map[];
    b := repository.AddEntity(second);
    assert a == 1 && b == 2;
    assert repository.entities == map[1 := second];
  }
}
