/** The bounded bridge from any thread to the connection's writer: Outbox in src/remoteinput/transport.py. */
module Transport {
  import opened Protocol
  import opened Queueing

  /** A frame waiting to be written; its bytes are those of `Protocol.Pack`. */
  datatype Parcel = Parcel(frame: Event, entered: real)

  datatype Box = Box(items: seq<Parcel>, failed: bool)

  datatype Next = Broken | Empty | Expired | Ready(frame: Event)

  const NO_FRAMES: Box := Box([], false)

  function BoxPut(b: Box, frame: Event, now: real, capacity: nat): Box {
    if |b.items| >= capacity then Box([], true)
    else if b.failed then b
    else Box(b.items + [Parcel(frame, now)], false)
  }

  predicate BoxAccepts(b: Box, capacity: nat) { |b.items| < capacity && !b.failed }

  /** Whether the put schedules a wake: for the first frame of an empty box, and always once failed. */
  predicate BoxWakes(b: Box, capacity: nat) {
    b.items == [] || b.failed || |b.items| >= capacity
  }

  function BoxNext(b: Box, now: real): Next {
    if b.failed then Broken
    else if b.items == [] then Empty
    else if now - b.items[0].entered > MAX_QUEUE_AGE then Expired
    else Ready(b.items[0].frame)
  }

  function BoxRest(b: Box): Box {
    if b.failed || b.items == [] then b else Box(b.items[1..], false)
  }

  class Outbox {
    var items: seq<Parcel>
    var failed: bool
    const capacity: nat

    function Value(): Box
      reads this
    {
      Box(items, failed)
    }

    constructor (capacity: nat)
      ensures Value() == NO_FRAMES && this.capacity == capacity
    {
      this.capacity, items, failed := capacity, [], false;
    }

    method Post(frame: Event, now: real) returns (wake: bool)
      modifies this
      ensures Value() == BoxPut(old(Value()), frame, now, capacity)
      ensures wake <==> BoxWakes(old(Value()), capacity)
    {
      var empty := items == [];
      if |items| >= capacity {
        items, failed := [], true;
      } else if !failed {
        items := items + [Parcel(frame, now)];
      }
      wake := empty || failed;
    }

    /** One turn of the writer's inner loop, up to the write itself. */
    method Take(now: real) returns (r: Next)
      modifies this
      ensures r == BoxNext(old(Value()), now)
      ensures Value() == BoxRest(old(Value()))
    {
      if failed {
        return Broken;
      }
      if items == [] {
        return Empty;
      }
      var head := items[0];
      items := items[1..];
      if now - head.entered > MAX_QUEUE_AGE {
        return Expired;
      }
      return Ready(head.frame);
    }
  }
}
