/**
 * The priority-ordered, synchronous event dispatcher.
 *
 * For each event name the dispatcher keeps a PHP array `priority => list of
 * listeners`. A PHP array is an insertion-ordered map, so a `PriorityTable`
 * holds the priorities in their current order beside the map of buckets.
 * Listeners are opaque ids; invoking one is recorded as a `Call` appended to
 * the dispatcher's `invoked` log, so the order of invocations can be stated
 * exactly.
 */
module EventDispatching {
  import opened Wrappers

  /** An opaque listener (a PHP callable). */
  type ListenerId = nat

  /** The base event, or an event subclass carrying a payload of type P. */
  datatype Event<P> = BaseEvent | Payload(payload: P)

  /** One registration: the listener at `position` in the bucket of `priority`. */
  datatype Slot = Slot(priority: int, position: nat, listener: ListenerId)

  /** `slot` is the registration stored at its place in `buckets`. */
  predicate Registered(buckets: map<int, seq<ListenerId>>, slot: Slot)
  {
    && slot.priority in buckets
    && slot.position < |buckets[slot.priority]|
    && buckets[slot.priority][slot.position] == slot.listener
  }

  /** `a` fires before `b`: a lower priority, or the same priority and registered earlier. */
  predicate FiresBefore(a: Slot, b: Slot)
  {
    a.priority < b.priority || (a.priority == b.priority && a.position < b.position)
  }

  predicate Distinct<T(==)>(s: seq<T>)
  {
    forall i, j :: 0 <= i < j < |s| ==> s[i] != s[j]
  }

  predicate StrictlyAscending(s: seq<int>)
  {
    forall i, j :: 0 <= i < j < |s| ==> s[i] < s[j]
  }

  /** The listeners of one event name, grouped by priority, as a PHP array. */
  datatype PriorityTable = PriorityTable(order: seq<int>, buckets: map<int, seq<ListenerId>>)
  {
    /** Keys are unique and are exactly the buckets' priorities; no bucket is empty. */
    ghost predicate Valid()
    {
      && order != []
      && Distinct(order)
      && (forall p :: p in order ==> p in buckets)
      && (forall p :: p in buckets ==> p in order)
      && (forall p :: p in buckets ==> buckets[p] != [])
    }
  }

  lemma AscendingHead(s: seq<int>)
    requires StrictlyAscending(s) && s != []
    ensures forall y :: y in s[1..] ==> s[0] < y
  {
    forall y | y in s[1..] ensures s[0] < y {
      var k :| 0 <= k < |s| - 1 && s[1..][k] == y;
      assert s[k + 1] == y;
    }
  }

  /** Inserts `x` into a strictly ascending sequence that does not hold it. */
  function Insert(sorted: seq<int>, x: int): (r: seq<int>)
    requires StrictlyAscending(sorted) && x !in sorted
    ensures StrictlyAscending(r)
    ensures |r| == |sorted| + 1
    ensures forall y :: y in r <==> y in sorted || y == x
  {
    if sorted == [] then [x]
    else if x < sorted[0] then [x] + sorted
    else
      var rest := Insert(sorted[1..], x);
      AscendingHead(sorted);
      assert forall k :: 0 <= k < |rest| ==> sorted[0] < rest[k] by {
        assert forall k :: 0 <= k < |rest| ==> rest[k] in rest;
      }
      assert sorted == [sorted[0]] + sorted[1..];
      [sorted[0]] + rest
  }

  /** PHP's `ksort` on integer keys: the same keys, in ascending order. */
  function SortKeys(keys: seq<int>): (r: seq<int>)
    requires Distinct(keys)
    ensures StrictlyAscending(r)
    ensures |r| == |keys|
    ensures forall y :: y in r <==> y in keys
  {
    if keys == [] then []
    else
      assert Distinct(keys[1..]);
      Insert(SortKeys(keys[1..]), keys[0])
  }

  /** A strictly ascending sequence is determined by its elements: `SortKeys` has one possible result. */
  lemma {:induction false} AscendingUnique(a: seq<int>, b: seq<int>)
    requires StrictlyAscending(a) && StrictlyAscending(b)
    requires forall y :: y in a <==> y in b
    ensures a == b
  {
    if a != [] {
      assert a[0] in a;
      assert a[0] in b;
    }
    if b != [] {
      assert b[0] in b;
      assert b[0] in a;
    }
    if a != [] && b != [] {
      AscendingHead(a);
      AscendingHead(b);
      assert a == [a[0]] + a[1..] && b == [b[0]] + b[1..];
      assert a[0] == b[0];
      forall y
        ensures y in a[1..] <==> y in b[1..]
      {
        assert y in a <==> y == a[0] || y in a[1..];
        assert y in b <==> y == b[0] || y in b[1..];
      }
      AscendingUnique(a[1..], b[1..]);
    }
  }

  /** Sorting a table's priorities keeps it well formed. */
  lemma SortedTableValid(table: PriorityTable)
    requires table.Valid()
    ensures PriorityTable(SortKeys(table.order), table.buckets).Valid()
  {
    var sorted := SortKeys(table.order);
    assert table.order[0] in sorted;
  }

  /** The registrations of one bucket, in insertion order. */
  function Slots(priority: int, listeners: seq<ListenerId>): seq<Slot>
  {
    seq(|listeners|, i requires 0 <= i < |listeners| => Slot(priority, i, listeners[i]))
  }

  /** The registrations of the buckets visited in the order `order`. */
  function Flatten(order: seq<int>, buckets: map<int, seq<ListenerId>>): seq<Slot>
    requires forall q :: q in order ==> q in buckets
  {
    if order == [] then []
    else Slots(order[0], buckets[order[0]]) + Flatten(order[1..], buckets)
  }

  /** The registrations in the order `dispatch` visits them: buckets sorted by priority. */
  function Schedule(table: PriorityTable): seq<Slot>
    requires table.Valid()
  {
    Flatten(SortKeys(table.order), table.buckets)
  }

  lemma {:induction false} FlattenSnoc(order: seq<int>, p: int, buckets: map<int, seq<ListenerId>>)
    requires forall q :: q in order ==> q in buckets
    requires p in buckets
    ensures Flatten(order + [p], buckets) == Flatten(order, buckets) + Slots(p, buckets[p])
  {
    if order == [] {
      assert [p][1..] == [];
    } else {
      assert (order + [p])[1..] == order[1..] + [p];
      FlattenSnoc(order[1..], p, buckets);
    }
  }

  /** Every element of a flattened sequence is a registration of one of the visited buckets. */
  lemma {:induction false} FlattenAt(order: seq<int>, buckets: map<int, seq<ListenerId>>, k: nat)
    requires forall q :: q in order ==> q in buckets
    requires k < |Flatten(order, buckets)|
    ensures Flatten(order, buckets)[k].priority in order
    ensures Registered(buckets, Flatten(order, buckets)[k])
  {
    var head := Slots(order[0], buckets[order[0]]);
    if k >= |head| {
      FlattenAt(order[1..], buckets, k - |head|);
    }
  }

  /** Every registration of a visited bucket occurs in the flattened sequence. */
  lemma {:induction false} FlattenComplete(order: seq<int>, buckets: map<int, seq<ListenerId>>, slot: Slot)
    requires forall q :: q in order ==> q in buckets
    requires slot.priority in order && Registered(buckets, slot)
    ensures slot in Flatten(order, buckets)
  {
    var head := Slots(order[0], buckets[order[0]]);
    if order[0] == slot.priority {
      assert head[slot.position] == slot;
    } else {
      FlattenComplete(order[1..], buckets, slot);
    }
  }

  /** Buckets visited in ascending priority give registrations in firing order. */
  lemma {:induction false} FlattenOrdered(order: seq<int>, buckets: map<int, seq<ListenerId>>)
    requires forall q :: q in order ==> q in buckets
    requires StrictlyAscending(order)
    ensures forall i, j :: 0 <= i < j < |Flatten(order, buckets)| ==>
      FiresBefore(Flatten(order, buckets)[i], Flatten(order, buckets)[j])
  {
    if order != [] {
      var head := Slots(order[0], buckets[order[0]]);
      var tail := Flatten(order[1..], buckets);
      FlattenOrdered(order[1..], buckets);
      forall i, j | 0 <= i < j < |head + tail|
        ensures FiresBefore((head + tail)[i], (head + tail)[j])
      {
        if j >= |head| && i < |head| {
          FlattenAt(order[1..], buckets, j - |head|);
        }
      }
    }
  }

  /**
   * Dispatch invokes each registration exactly in the buckets: a slot is
   * scheduled iff it is registered.
   */
  lemma ScheduleExact(table: PriorityTable, slot: Slot)
    requires table.Valid()
    ensures slot in Schedule(table) <==> Registered(table.buckets, slot)
  {
    var sorted := SortKeys(table.order);
    if slot in Schedule(table) {
      var k :| 0 <= k < |Schedule(table)| && Schedule(table)[k] == slot;
      FlattenAt(sorted, table.buckets, k);
    }
    if Registered(table.buckets, slot) {
      FlattenComplete(sorted, table.buckets, slot);
    }
  }

  /**
   * Dispatch order: ascending priority, and registration order within one
   * priority. As the order is strict, no registration is invoked twice.
   */
  lemma ScheduleOrdered(table: PriorityTable)
    requires table.Valid()
    ensures forall i, j :: 0 <= i < j < |Schedule(table)| ==>
      FiresBefore(Schedule(table)[i], Schedule(table)[j])
  {
    FlattenOrdered(SortKeys(table.order), table.buckets);
  }

  /** No registration is scheduled twice. */
  lemma ScheduleDistinct(table: PriorityTable)
    requires table.Valid()
    ensures Distinct(Schedule(table))
  {
    ScheduleOrdered(table);
  }

  /** One invocation of a listener with the event, the event name and the dispatcher. */
  datatype Call<P> = Call(listener: ListenerId, event: Event<P>, eventName: string,
                          dispatcher: EventDispatcher<P>)

  class EventDispatcher<P> {
    /** event name => priority => listeners */
    var listeners: map<string, PriorityTable>
    /** Every listener invocation so far, in order. */
    var invoked: seq<Call<P>>

    ghost predicate Valid()
      reads this
    {
      forall e :: e in listeners ==> listeners[e].Valid()
    }

    constructor ()
      ensures Valid() && listeners == map[] && invoked == []
    {
      listeners := map[];
      invoked := [];
    }

    /** The bucket of listeners under `(eventName, priority)`; empty when absent. */
    ghost function Bucket(eventName: string, priority: int): seq<ListenerId>
      reads this
    {
      if eventName in listeners && priority in listeners[eventName].buckets
      then listeners[eventName].buckets[priority]
      else []
    }

    /** The registrations that `Dispatch(eventName, _)` invokes, in order. */
    function DispatchOrder(eventName: string): seq<Slot>
      reads this
      requires Valid()
    {
      if eventName in listeners then Schedule(listeners[eventName]) else []
    }

    /**
     * `Dispatch(eventName, _)` schedules exactly the registrations made under
     * `eventName`, so never a listener of another name, and nothing for a
     * name without listeners.
     */
    lemma DispatchOrderExact(eventName: string, slot: Slot)
      requires Valid()
      ensures slot in DispatchOrder(eventName) <==>
        slot.position < |Bucket(eventName, slot.priority)|
        && Bucket(eventName, slot.priority)[slot.position] == slot.listener
    {
      if eventName in listeners {
        ScheduleExact(listeners[eventName], slot);
      }
    }

    /** The calls made for the registrations `slots`, each with `event`, `eventName` and this dispatcher. */
    function CallsOf(slots: seq<Slot>, event: Event<P>, eventName: string): (r: seq<Call<P>>)
    {
      seq(|slots|, k requires 0 <= k < |slots| => Call(slots[k].listener, event, eventName, this))
    }

    lemma CallsOfSnoc(slots: seq<Slot>, slot: Slot, event: Event<P>, eventName: string)
      ensures CallsOf(slots + [slot], event, eventName)
        == CallsOf(slots, event, eventName) + [Call(slot.listener, event, eventName, this)]
    {
    }

    lemma CallsOfAppend(a: seq<Slot>, b: seq<Slot>, event: Event<P>, eventName: string)
      ensures CallsOf(a + b, event, eventName) == CallsOf(a, event, eventName) + CallsOf(b, event, eventName)
    {
    }

    /** True exactly when some listener has been added under `eventName`. */
    predicate EventExists(eventName: string): (r: bool)
      reads this
      requires Valid()
      ensures r <==> exists p :: Bucket(eventName, p) != []
    {
      if eventName in listeners then
        var t := listeners[eventName];
        assert Bucket(eventName, t.order[0]) != [];
        true
      else
        false
    }

    /**
     * Appends `listener` to the end of bucket `(eventName, priority)` and
     * returns the dispatcher itself. A new event name starts a table with
     * this one priority; a new priority of a known event is placed last.
     */
    method AddListener(eventName: string, listener: ListenerId, priority: int := 0)
      returns (self: EventDispatcher<P>)
      requires Valid()
      modifies this`listeners
      ensures Valid() && self == this
      ensures eventName in listeners
      ensures Bucket(eventName, priority) == old(Bucket(eventName, priority)) + [listener]
      ensures forall e, p :: (e != eventName || p != priority) ==> Bucket(e, p) == old(Bucket(e, p))
      ensures listeners == old(listeners)[eventName := listeners[eventName]]
      ensures eventName !in old(listeners) ==>
        listeners[eventName] == PriorityTable([priority], map[priority := [listener]])
      ensures eventName in old(listeners) ==>
        listeners[eventName] == PriorityTable(
          if priority in old(listeners[eventName].buckets) then old(listeners[eventName].order)
          else old(listeners[eventName].order) + [priority],
          old(listeners[eventName].buckets)[priority := old(Bucket(eventName, priority)) + [listener]])
    {
      var table;
      if eventName !in listeners {
        table := PriorityTable([priority], map[priority := [listener]]);
      } else if priority in listeners[eventName].buckets {
        table := listeners[eventName];
        table := table.(buckets := table.buckets[priority := table.buckets[priority] + [listener]]);
      } else {
        table := listeners[eventName];
        table := PriorityTable(table.order + [priority], table.buckets[priority := [listener]]);
      }
      listeners := listeners[eventName := table];
      self := this;
    }

    /**
     * Sorts the priorities of `eventName` in place and invokes its listeners
     * in ascending priority, registration order within a priority. Returns
     * `event`, or a new base event when none was given. A name without
     * listeners invokes nothing.
     */
    method Dispatch(eventName: string, event: Option<Event<P>>) returns (r: Event<P>)
      requires Valid()
      modifies this
      ensures Valid()
      ensures r == if event.Some? then event.value else BaseEvent
      ensures eventName !in old(listeners) ==> listeners == old(listeners)
      ensures eventName in old(listeners) ==>
        listeners == old(listeners)[eventName := PriorityTable(
          SortKeys(old(listeners[eventName].order)), old(listeners[eventName].buckets))]
      ensures invoked == old(invoked) + CallsOf(old(DispatchOrder(eventName)), r, eventName)
    {
      r := if event.Some? then event.value else BaseEvent;
      if eventName in listeners {
        var table := listeners[eventName];
        var sorted := SortKeys(table.order);
        SortedTableValid(table);
        listeners := listeners[eventName := PriorityTable(sorted, table.buckets)];
        InvokeAll(sorted, table.buckets, r, eventName);
      }
    }

    /** Invokes the buckets in the order `sorted`, each in registration order. */
    method InvokeAll(sorted: seq<int>, buckets: map<int, seq<ListenerId>>, event: Event<P>, eventName: string)
      requires forall q :: q in sorted ==> q in buckets
      modifies this`invoked
      ensures invoked == old(invoked) + CallsOf(Flatten(sorted, buckets), event, eventName)
    {
      ghost var done: seq<Slot> := [];
      for i := 0 to |sorted|
        invariant forall q :: q in sorted[..i] ==> q in buckets
        invariant done == Flatten(sorted[..i], buckets)
        invariant invoked == old(invoked) + CallsOf(done, event, eventName)
      {
        var priority := sorted[i];
        assert priority in sorted;
        var bucket := buckets[priority];
        InvokeBucket(priority, bucket, event, eventName);
        CallsOfAppend(done, Slots(priority, bucket), event, eventName);
        assert sorted[..i + 1] == sorted[..i] + [priority];
        FlattenSnoc(sorted[..i], priority, buckets);
        done := done + Slots(priority, bucket);
      }
      assert sorted[..|sorted|] == sorted;
    }

    /** Invokes the listeners of one bucket in registration order. */
    method InvokeBucket(priority: int, bucket: seq<ListenerId>, event: Event<P>, eventName: string)
      modifies this`invoked
      ensures invoked == old(invoked) + CallsOf(Slots(priority, bucket), event, eventName)
    {
      for j := 0 to |bucket|
        invariant invoked == old(invoked) + CallsOf(Slots(priority, bucket)[..j], event, eventName)
      {
        assert Slots(priority, bucket)[..j + 1] == Slots(priority, bucket)[..j] + [Slot(priority, j, bucket[j])];
        CallsOfSnoc(Slots(priority, bucket)[..j], Slot(priority, j, bucket[j]), event, eventName);
        invoked := invoked + [Call(bucket[j], event, eventName, this)];
      }
      assert Slots(priority, bucket)[..|bucket|] == Slots(priority, bucket);
    }
  }
}
