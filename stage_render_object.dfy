/**
 * The game stage's render object: it holds a vertex list and a shared
 * Vulkan container, and executing it moves the vertices into the container
 * as one new vertex buffer.
 */
module StageEvents {
  import opened Status
  import opened Geometry
  import Vulkan

  class RenderObject {
    var status: EventStatus
    var vertices: seq<Vertex>
    const container: Vulkan.VulkanContainer

    /** A new render object is `Pending` and holds the given vertices. */
    constructor (vertices: seq<Vertex>, container: Vulkan.VulkanContainer)
      ensures status == Pending && this.vertices == vertices && this.container == container
    {
      status := Pending;
      this.vertices := vertices;
      this.container := container;
    }

    /**
     * The container gains exactly one vertex buffer, at the end, holding the
     * vertices this object held; the object is left empty and `Done`.
     */
    method Process()
      modifies this, container
      ensures container.vertexBuffers == old(container.vertexBuffers) + [old(vertices)]
      ensures container.viewports == old(container.viewports) && container.scissors == old(container.scissors)
      ensures vertices == [] && status == Done
    {
      status := Processing;
      var taken := vertices;
      vertices := [];
      container.CreateVertexBuffer(taken);
      status := Done;
    }

    /** `execute` is `process`. */
    method Execute()
      modifies this, container
      ensures container.vertexBuffers == old(container.vertexBuffers) + [old(vertices)]
      ensures container.viewports == old(container.viewports) && container.scissors == old(container.scissors)
      ensures vertices == [] && status == Done
    {
      Process();
    }
  }

  /**
   * In this model, executing a render object twice adds its vertices once and
   * then an empty buffer (the allocation of a buffer is assumed to succeed,
   * even for an empty list).
   */
  method ExecuteTwiceScenario(container: Vulkan.VulkanContainer, vertices: seq<Vertex>)
    modifies container
    ensures container.vertexBuffers == old(container.vertexBuffers) + [vertices] + [[]]
  {
    var before := container.vertexBuffers;
    var event := new RenderObject(vertices, container);
    event.Execute();
    event.Execute();
    assert container.vertexBuffers == before + [vertices] + [[]];
  }
}
