/**
 * The entity component: turns entity creation and deletion events into
 * repository updates plus one Vulkan event each, handed to the event bus.
 * The stream of events handed to the bus is the `published` field.
 */
module EntityComponents {
  import opened Geometry
  import opened BaseEntities
  import opened Repository

  datatype EntityEvent =
    | EntityCreationEvent(transform: Transform)
    | EntityDeletionEvent(entityId: nat)

  datatype ObjectCreateInfo = ObjectCreateInfo(
    objectId: nat,
    vertices: seq<Vertex>,
    objectTransform: Transform,
    texturePath: string)

  datatype VulkanEvent =
    | CreateObjectEvent(info: ObjectCreateInfo)
    | DeleteObjectEvent(objectId: nat)

  /** Every created object is given this texture. */
  const DefaultTexturePath: string := "src/engine/vulkan/base_resources/default_texture.png"

  class EntityComponent {
    const repository: EntityRepository
    var published: seq<VulkanEvent>

    constructor ()
      ensures fresh(repository) && repository.Valid()
      ensures repository.entities == map[] && repository.unusedId == 0
      ensures published == []
    {
      repository := new EntityRepository();
      published := [];
    }

    /**
     * Creation: a new cube with the given transform is added to the
     * repository under the counter's old value, and one `CreateObjectEvent`
     * is published carrying `add_entity`'s result (that key plus one), the
     * cube's vertices, the transform and the default texture.
     * Deletion: the id is removed (a no-op if absent) and one
     * `DeleteObjectEvent` with the same id is published.
     */
    method HandleEvent(event: EntityEvent)
      requires repository.Valid()
      modifies this, repository
      ensures repository.Valid()
      ensures event.EntityCreationEvent? ==>
        var key := old(repository.unusedId);
        && key !in old(repository.entities)
        && key in repository.entities
        && repository.entities == old(repository.entities)[key := repository.entities[key]]
        && repository.entities[key].Cube?
        && fresh(repository.entities[key].cube)
        && repository.entities[key].cube.transform == event.transform
        && repository.unusedId == key + 1
        && published == old(published) +
             [CreateObjectEvent(ObjectCreateInfo(key + 1, CubeModel(), event.transform, DefaultTexturePath))]
      ensures event.EntityDeletionEvent? ==>
        && repository.entities == old(repository.entities) - {event.entityId}
        && repository.unusedId == old(repository.unusedId)
        && published == old(published) + [DeleteObjectEvent(event.entityId)]
    {
      match event
      case EntityCreationEvent(transform) =>
        var entity := new CubeEntity(transform);
        var vertices := entity.GetModel();
        var entityTransform := entity.GetTransform();
        var entityId := repository.AddEntity(Cube(entity));
        var info := ObjectCreateInfo(entityId, vertices, entityTransform, DefaultTexturePath);
        published := published + [CreateObjectEvent(info)];
      case EntityDeletionEvent(entityId) =>
        repository.RemoveEntity(entityId);
        published := published + [DeleteObjectEvent(entityId)];
    }
  }

  /**
   * Creating one cube and then deleting the key it was stored under: the
   * create event names object 1, the delete event names object 0.
   */
  method CreateThenDeleteScenario(transform: Transform) returns (published: seq<VulkanEvent>)
    ensures |published| == 2
    ensures published[0].CreateObjectEvent? && published[0].info.objectId == 1
    ensures published[1] == DeleteObjectEvent(0)
  {
    var component := new EntityComponent();
    component.HandleEvent(EntityCreationEvent(transform));
    assert 0 in component.repository.entities;
    component.HandleEvent(EntityDeletionEvent(0));
    assert component.repository.entities == map[];
    assert component.published[0].info.objectId == 1;
    assert component.published[1] == DeleteObjectEvent(0);
    published := component.published;
  }
}
