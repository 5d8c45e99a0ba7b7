/**
 * The earlier event queue: `actualize` executes every event (which returns
 * nothing) and then drops the `Done` ones. Its one event, `RenderObject`,
 * holds a vertex list and goes Pending -> Processing -> Done in one execution.
 */
module Events {
  import opened Status
  import opened Geometry
  import opened Wrappers
  import EventQueue

  /**
   * Each event after executing once, position by position: the queue's
   * `Executed` for an `execute` that hands back no command.
   */
  function ExecutedAll<E>(events: seq<E>, execute: E -> E): (r: seq<E>)
    ensures |r| == |events|
    ensures forall i :: 0 <= i < |events| ==> r[i] == execute(events[i])
  {
    EventQueue.Executed<E, ()>(events, e => (execute(e), None))
  }

  class EventManager<E> {
    var events: seq<E>

    constructor ()
      ensures events == []
    {
      events := [];
    }

    /** Appends one event at the end. */
    method AddEvent(event: E)
      modifies this
      ensures events == old(events) + [event]
    {
      events := events + [event];
    }

    /** Executes every event once, in order, then keeps those not `Done`, in order. */
    method Actualize(execute: E -> E, status: E -> EventStatus)
      modifies this
      ensures events == EventQueue.Retained(ExecutedAll(old(events), execute), status)
    {
      var queue := events;
      for index := 0 to |queue|
        invariant |queue| == |events|
        invariant forall k :: 0 <= k < index ==> queue[k] == execute(events[k])
        invariant forall k :: index <= k < |queue| ==> queue[k] == events[k]
      {
        queue := queue[index := execute(queue[index])];
      }
      assert queue == ExecutedAll(events, execute);

      var kept := [];
      for j := 0 to |queue|
        invariant kept == EventQueue.Retained(queue[..j], status)
      {
        assert queue[..j + 1][..j] == queue[..j];
        if status(queue[j]) != Done {
          kept := kept + [queue[j]];
        }
      }
      assert queue[..|queue|] == queue;
      events := kept;
    }
  }

  /** A render object's observable state: its status and the vertices it holds. */
  datatype RenderObjectState = RenderObjectState(status: EventStatus, vertices: seq<Vertex>)

  /** What one execution does to a render object: it ends `Done`, holding the same vertices. */
  function ExecuteRenderObject(s: RenderObjectState): (s': RenderObjectState)
    ensures s'.status == Done && s'.vertices == s.vertices
  {
    RenderObjectState(Done, s.vertices)
  }

  function StatusOf(s: RenderObjectState): EventStatus
  {
    s.status
  }

  class RenderObject {
    var status: EventStatus
    var vertices: seq<Vertex>

    /** A new render object is `Pending` and holds the given vertices. */
    constructor (vertices: seq<Vertex>)
      ensures status == Pending && this.vertices == vertices
    {
      status := Pending;
      this.vertices := vertices;
    }

    function State(): RenderObjectState
      reads this
    {
      RenderObjectState(status, vertices)
    }

    /** Executing passes through `Processing` and leaves the object `Done`. */
    method Execute()
      modifies this
      ensures State() == ExecuteRenderObject(old(State()))
    {
      status := Processing;
      status := Done;
    }
  }

  /**
   * Whatever render objects are queued, the `actualize` that executes them
   * removes them all: each is `Done` after its execution.
   */
  lemma ActualizeRemovesRenderObjects(events: seq<RenderObjectState>)
    ensures EventQueue.Retained(ExecutedAll(events, ExecuteRenderObject), StatusOf) == []
  {
    EventQueue.RetainedAllDone(ExecutedAll(events, ExecuteRenderObject), StatusOf);
  }

  /** Pending render objects added one after another are all gone after one `actualize`. */
  method RenderTwiceScenario(a: seq<Vertex>, b: seq<Vertex>) returns (remaining: seq<RenderObjectState>)
    ensures remaining == []
  {
    var manager := new EventManager<RenderObjectState>();
    var first := new RenderObject(a);
    var second := new RenderObject(b);
    manager.AddEvent(first.State());
    manager.AddEvent(second.State());
    assert manager.events == [RenderObjectState(Pending, a), RenderObjectState(Pending, b)];
    manager.Actualize(ExecuteRenderObject, StatusOf);
    ActualizeRemovesRenderObjects([RenderObjectState(Pending, a), RenderObjectState(Pending, b)]);
    remaining := manager.events;
  }
}
