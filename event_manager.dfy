/**
 * The event queue that executes every queued event once and collects the
 * commands the events hand back, then drops the events that are `Done`.
 *
 * Events are boxed trait objects in the program; here the queue holds event
 * values of a type parameter `E`, and the two trait methods become functions
 * passed to `Process`: `execute` returns the event's new state together with
 * the command it may produce, `status` reads its status.
 */
module EventQueue {
  import opened Wrappers
  import opened Status

  /** Each event after executing once, position by position. */
  function Executed<E, C>(events: seq<E>, execute: E -> (E, Option<C>)): seq<E>
  {
    seq(|events|, i requires 0 <= i < |events| => execute(events[i]).0)
  }

  /** The commands the events produce when executed, in queue order: the `Some` results only. */
  function Collected<E, C>(events: seq<E>, execute: E -> (E, Option<C>)): (r: seq<C>)
    ensures |r| <= |events|
  {
    if events == [] then []
    else
      var out := execute(events[|events| - 1]).1;
      Collected(events[..|events| - 1], execute) + (if out.Some? then [out.value] else [])
  }

  /** `retain(status != Done)`: the events that are not `Done`, in their original order. */
  function Retained<E>(events: seq<E>, status: E -> EventStatus): (r: seq<E>)
    ensures |r| <= |events|
    ensures forall k :: 0 <= k < |r| ==> status(r[k]) != Done
    ensures forall e :: e in r ==> e in events
    ensures forall e :: e in events && status(e) != Done ==> e in r
  {
    if events == [] then []
    else
      var last := events[|events| - 1];
      Retained(events[..|events| - 1], status) + (if status(last) != Done then [last] else [])
  }

  /** Retaining distributes over concatenation, so the kept events keep their relative order. */
  lemma {:induction false} RetainedAppend<E>(a: seq<E>, b: seq<E>, status: E -> EventStatus)
    ensures Retained(a + b, status) == Retained(a, status) + Retained(b, status)
    decreases |b|
  {
    if b == [] {
      assert a + b == a;
    } else {
      var n := |b| - 1;
      assert (a + b)[..|a + b| - 1] == a + b[..n];
      RetainedAppend(a, b[..n], status);
    }
  }

  /** A single event is kept exactly when it is not `Done` (in particular a `Failed` event is kept). */
  lemma RetainedSingle<E>(e: E, status: E -> EventStatus)
    ensures Retained([e], status) == if status(e) == Done then [] else [e]
  {
    assert [e][..0] == [];
  }

  /** When every event is `Done`, nothing is kept. */
  lemma {:induction false} RetainedAllDone<E>(events: seq<E>, status: E -> EventStatus)
    requires forall i :: 0 <= i < |events| ==> status(events[i]) == Done
    ensures Retained(events, status) == []
  {
    if events != [] {
      RetainedAllDone(events[..|events| - 1], status);
    }
  }

  /** Collecting distributes over concatenation: commands come out in event order. */
  lemma {:induction false} CollectedAppend<E, C>(a: seq<E>, b: seq<E>, execute: E -> (E, Option<C>))
    ensures Collected(a + b, execute) == Collected(a, execute) + Collected(b, execute)
    decreases |b|
  {
    if b == [] {
      assert a + b == a;
    } else {
      var n := |b| - 1;
      assert (a + b)[..|a + b| - 1] == a + b[..n];
      CollectedAppend(a, b[..n], execute);
    }
  }

  /** When every event produces a command, there is one command per event, in position. */
  lemma {:induction false} CollectedAllSome<E, C>(events: seq<E>, execute: E -> (E, Option<C>))
    requires forall i :: 0 <= i < |events| ==> execute(events[i]).1.Some?
    ensures |Collected(events, execute)| == |events|
    ensures forall i :: 0 <= i < |events| ==> Collected(events, execute)[i] == execute(events[i]).1.value
  {
    if events != [] {
      CollectedAllSome(events[..|events| - 1], execute);
    }
  }

  /** When no event produces a command, nothing is collected. */
  lemma {:induction false} CollectedAllNone<E, C>(events: seq<E>, execute: E -> (E, Option<C>))
    requires forall i :: 0 <= i < |events| ==> execute(events[i]).1.None?
    ensures Collected(events, execute) == []
  {
    if events != [] {
      CollectedAllNone(events[..|events| - 1], execute);
    }
  }

  class EventManager<E, C> {
    var events: seq<E>

    constructor ()
      ensures events == []
    {
      events := [];
    }

    /** Appends the event at the end of the queue. */
    method AddEvent(event: E)
      modifies this
      ensures events == old(events) + [event]
    {
      events := events + [event];
    }

    /**
     * Executes every queued event once, in queue order, collecting each command
     * an event returns; then keeps only the events whose new status is not `Done`.
     * (A `Failed` event is logged and kept; the log is not modelled.)
     */
    method Process(execute: E -> (E, Option<C>), status: E -> EventStatus) returns (commands: seq<C>)
      modifies this
      ensures commands == Collected(old(events), execute)
      ensures events == Retained(Executed(old(events), execute), status)
    {
      var queue := events;
      commands := [];
      var i := 0;
      while i < |queue|
        invariant 0 <= i <= |queue| == |events|
        invariant queue[..i] == Executed(events[..i], execute)
        invariant queue[i..] == events[i..]
        invariant commands == Collected(events[..i], execute)
      {
        var (executed, possibleCommand) := execute(queue[i]);
        assert events[..i + 1][..i] == events[..i];
        assert events[i] == queue[i];
        queue := queue[i := executed];
        if possibleCommand.Some? {
          commands := commands + [possibleCommand.value];
        }
        i := i + 1;
      }
      assert events[..i] == events;
      assert queue[..i] == queue;

      var kept := [];
      var j := 0;
      while j < |queue|
        invariant 0 <= j <= |queue|
        invariant kept == Retained(queue[..j], status)
      {
        assert queue[..j + 1][..j] == queue[..j];
        if status(queue[j]) != Done {
          kept := kept + [queue[j]];
        }
        j := j + 1;
      }
      assert queue[..j] == queue;
      events := kept;
    }
  }

  /** One pass of the queue as a whole: the new queue and the commands, as `Process` leaves them. */
  function ProcessSpec<E, C>(events: seq<E>, execute: E -> (E, Option<C>), status: E -> EventStatus): (seq<E>, seq<C>)
  {
    (Retained(Executed(events, execute), status), Collected(events, execute))
  }

  /**
   * An event added after others is executed last and, unless it is `Done`
   * afterwards, stays at the end of the queue; its command, if any, comes last.
   */
  lemma AddedEventProcessedLast<E, C>(events: seq<E>, e: E, execute: E -> (E, Option<C>), status: E -> EventStatus)
    ensures var (queue, commands) := ProcessSpec(events + [e], execute, status);
      var (e', out) := execute(e);
      queue == Retained(Executed(events, execute), status) + (if status(e') == Done then [] else [e'])
      && commands == Collected(events, execute) + (if out.Some? then [out.value] else [])
  {
    assert Executed(events + [e], execute) == Executed(events, execute) + [execute(e).0];
    RetainedAppend(Executed(events, execute), [execute(e).0], status);
    RetainedSingle(execute(e).0, status);
    CollectedAppend(events, [e], execute);
    assert [e][..0] == [];
  }
}
