/** Readiness hints and the bounded event destination. */
module Events {
  import opened Vocabulary

  datatype Hint = Readable | Writable | ReadClosed | WriteClosed | ErrorHint

  /** A snapshot of hints; the union of two snapshots has the hints of both. */
  type Readiness = set<Hint>

  datatype Event = Resource(key: Key, readiness: Readiness) | Wake(wakeKey: Key)

  class EventBuffer {
    const capacity: nat
    var items: seq<Event>

    ghost predicate Valid()
      reads this
    {
      1 <= capacity && |items| <= capacity
    }

    constructor (capacity: nat)
      requires 1 <= capacity
      ensures Valid() && this.capacity == capacity && items == []
    {
      this.capacity, items := capacity, [];
    }

    method Clear()
      requires Valid()
      modifies this
      ensures Valid() && items == []
    {
      items := [];
    }

    method TryPush(event: Event) returns (r: Result<Unit, Error>)
      requires Valid()
      modifies this
      ensures Valid()
      ensures r.Ok? <==> |old(items)| < capacity
      ensures items == if r.Ok? then old(items) + [event] else old(items)
      ensures r.Err? ==> r.error == EventsTooSmall(capacity + 1, capacity)
    {
      if |items| >= capacity { return Err(EventsTooSmall(|items| + 1, capacity)); }
      items := items + [event];
      r := Ok(Unit);
    }
  }
}
