/**
 * The render object whose `execute` receives the Vulkan container as an
 * argument instead of holding it: executing it moves the held vertices into
 * the container passed in, as one new vertex buffer.
 */
module ContainerEvents {
  import opened Status
  import opened Geometry
  import Vulkan

  class RenderObject {
    var status: EventStatus
    var vertices: seq<Vertex>

    /** A new render object is `Pending` and holds the given vertices. */
    constructor (vertices: seq<Vertex>)
      ensures status == Pending && this.vertices == vertices
    {
      status := Pending;
      this.vertices := vertices;
    }

    /**
     * The container passed in gains exactly one vertex buffer, at the end,
     * holding the vertices this object held; the object is left empty and `Done`.
     */
    method Process(container: Vulkan.VulkanContainer)
      modifies this, container
      ensures container.vertexBuffers == old(container.vertexBuffers) + [old(vertices)]
      ensures container.viewports == old(container.viewports) && container.scissors == old(container.scissors)
      ensures vertices == [] && status == Done
    {
      status := Processing;
      var taken := vertices;
      vertices := [];
      container.CreateVertexBuffer(taken);
      status := Done;
    }

    /** `execute(container)` is `process(container)`. */
    method Execute(container: Vulkan.VulkanContainer)
      modifies this, container
      ensures container.vertexBuffers == old(container.vertexBuffers) + [old(vertices)]
      ensures container.viewports == old(container.viewports) && container.scissors == old(container.scissors)
      ensures vertices == [] && status == Done
    {
      Process(container);
    }
  }
}
