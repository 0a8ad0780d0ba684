/** A bounded queue that can be armed with a wake-up event for whoever finds it empty. */
module EventQueues {
  import opened Common

  datatype EventQueue<T> = EventQueue(items: seq<T>, event: Option<EventId>, limit: nat)

  datatype Pushed = Full | Pushed(trigger: Option<EventId>)

  function Empty<T>(limit: nat): EventQueue<T> {
    EventQueue([], None, limit)
  }

  /** Appends unless full; an armed event is taken off the queue to be triggered. */
  function Push<T>(q: EventQueue<T>, item: T): (EventQueue<T>, Pushed) {
    if |q.items| >= q.limit then (q, Full)
    else (q.(items := q.items + [item], event := None), Pushed(q.event))
  }

  /** Makes sure the queue is armed; `unused` is the next unused event id. */
  function Arm<T>(q: EventQueue<T>, unused: EventId): (EventQueue<T>, EventId) {
    match q.event
    case Some(e) => (q, e)
    case None => (q.(event := Some(unused)), unused)
  }

  /** An armed queue is empty, and no queue outgrows its limit. */
  ghost predicate QueueInv<T>(q: EventQueue<T>) {
    |q.items| <= q.limit && (q.event.Some? ==> q.items == [])
  }
}
