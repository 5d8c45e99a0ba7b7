/**
 * The events executed by the command-collecting queue (`EventQueue`):
 * `RenderObject` hands its vertices over in a `CreateVulkanObject` command,
 * `DeleteObject` removes a vertex buffer from the container it holds.
 * Both go Pending -> Processing -> Done within one execution.
 */
module EventSubcomponents {
  import opened Wrappers
  import opened Status
  import opened Geometry
  import Vulkan
  import EventQueue

  /** The command a render object produces: create a GPU object with these vertices and this transform. */
  datatype CommandType = CreateVulkanObject(objectId: nat, vertices: seq<Vertex>, transform: Transform)

  /** A render object's state: status, object id, the vertices it still holds, and its transform. */
  datatype RenderObjectState =
    RenderObjectState(status: EventStatus, objectId: nat, vertices: seq<Vertex>, transform: Transform)

  /**
   * One execution of a render object: the command carries the object's id,
   * the vertices it held and its transform; the object is left `Done`
   * holding no vertices, with the same id and transform.
   */
  function ExecuteRenderObject(s: RenderObjectState): (r: (RenderObjectState, Option<CommandType>))
    ensures r.1 == Some(CreateVulkanObject(s.objectId, s.vertices, s.transform))
    ensures r.0.status == Done && r.0.vertices == []
    ensures r.0.objectId == s.objectId && r.0.transform == s.transform
  {
    (s.(status := Done, vertices := []), Some(CreateVulkanObject(s.objectId, s.vertices, s.transform)))
  }

  function StatusOf(s: RenderObjectState): EventStatus
  {
    s.status
  }

  class RenderObject {
    var status: EventStatus
    var objectId: nat
    var vertices: seq<Vertex>
    var transform: Transform

    /** A new render object is `Pending` with the given id, vertices and transform. */
    constructor (objectId: nat, vertices: seq<Vertex>, transform: Transform)
      ensures State() == RenderObjectState(Pending, objectId, vertices, transform)
    {
      status := Pending;
      this.objectId := objectId;
      this.vertices := vertices;
      this.transform := transform;
    }

    function State(): RenderObjectState
      reads this
    {
      RenderObjectState(status, objectId, vertices, transform)
    }

    /** Builds the command from the held vertices (taking them out) and finishes `Done`. */
    method Process() returns (command: CommandType)
      modifies this
      ensures (State(), Some(command)) == ExecuteRenderObject(old(State()))
    {
      status := Processing;
      command := CreateVulkanObject(objectId, vertices, transform);
      vertices := [];
      status := Done;
    }

    /** `execute` always yields the command `process` builds. */
    method Execute() returns (command: Option<CommandType>)
      modifies this
      ensures (State(), command) == ExecuteRenderObject(old(State()))
    {
      var c := Process();
      command := Some(c);
    }
  }

  /**
   * Processing a queue of render objects yields one command per object, in
   * queue order, each carrying that object's vertices, and empties the queue.
   */
  lemma ProcessRenderObjects(events: seq<RenderObjectState>)
    ensures var commands := EventQueue.Collected(events, ExecuteRenderObject);
      |commands| == |events| &&
      forall i :: 0 <= i < |events| ==>
        commands[i] == CreateVulkanObject(events[i].objectId, events[i].vertices, events[i].transform)
    ensures EventQueue.Retained(EventQueue.Executed(events, ExecuteRenderObject), StatusOf) == []
  {
    EventQueue.CollectedAllSome(events, ExecuteRenderObject);
    EventQueue.RetainedAllDone(EventQueue.Executed(events, ExecuteRenderObject), StatusOf);
  }

  class DeleteObject {
    var status: EventStatus
    /** The position of the vertex buffer to delete. */
    var index: nat
    const container: Vulkan.VulkanContainer

    /** A new delete event is `Pending` and holds the index and the container. */
    constructor (index: nat, container: Vulkan.VulkanContainer)
      ensures status == Pending && this.index == index && this.container == container
    {
      status := Pending;
      this.index := index;
      this.container := container;
    }

    /**
     * Deletes the vertex buffer at the held index from the container (nothing
     * when the index is out of range), resets the index to 0 and finishes `Done`.
     */
    method Process()
      modifies this, container
      ensures status == Done && index == 0
      ensures old(index) >= |old(container.vertexBuffers)| ==> container.vertexBuffers == old(container.vertexBuffers)
      ensures old(index) < |old(container.vertexBuffers)| ==>
        container.vertexBuffers == Vulkan.RemoveAt(old(container.vertexBuffers), old(index))
      ensures container.viewports == old(container.viewports) && container.scissors == old(container.scissors)
    {
      status := Processing;
      var taken := index;
      index := 0;
      container.DeleteVertexBuffer(taken);
      status := Done;
    }

    /** `execute` is `process`. */
    method Execute()
      modifies this, container
      ensures status == Done && index == 0
      ensures old(index) >= |old(container.vertexBuffers)| ==> container.vertexBuffers == old(container.vertexBuffers)
      ensures old(index) < |old(container.vertexBuffers)| ==>
        container.vertexBuffers == Vulkan.RemoveAt(old(container.vertexBuffers), old(index))
      ensures container.viewports == old(container.viewports) && container.scissors == old(container.scissors)
    {
      Process();
    }
  }
}
