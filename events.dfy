/** `EventEmitter`: a map from event name to a growable list of callback
    slots. `on` appends a callback to the event's list, growing the list's
    block when it is full; `emit` calls every callback of the event, in the
    order they were registered, with the same data. */
module Events {
  import opened Runtime

  /** A callback is the function-table index that `on` stores in a slot and
      that `emit` calls through `call_indirect`. */
  type CallbackId = nat

  /** One indirect call made by `emit`: the callback called and the data it
      was given. */
  datatype Invocation<T> = Invocation(callback: CallbackId, data: T)

  /** Words in the block `_ensureEvent` allocates: the `count` field
      (`offsetof<EventList>()`, one word) and four slots. */
  const INITIAL_WORDS: nat := 5

  // ---------------------------------------------------------------------
  // The emitter as a value: each event name with its callbacks, in order.
  // ---------------------------------------------------------------------

  type Registry<K> = map<K, seq<CallbackId>>

  /** The callbacks `emit(event, …)` calls: none for an unknown event. */
  function Listeners<K>(reg: Registry<K>, event: K): seq<CallbackId>
  {
    if event in reg then reg[event] else []
  }

  /** `_ensureEvent`: an empty list is added only when the event is absent;
      every list already there is left as it is. */
  function EnsuredEvent<K>(reg: Registry<K>, event: K): (r: Registry<K>)
    ensures r.Keys == reg.Keys + {event}
    ensures forall e | e in reg :: r[e] == reg[e]
    ensures event !in reg ==> r[event] == []
  {
    if event in reg then reg else reg[event := []]
  }

  /** Adding an empty list changes nothing `emit` can observe, for any event. */
  lemma EnsuredEventUnobservable<K>(reg: Registry<K>, event: K, other: K)
    ensures Listeners(EnsuredEvent(reg, event), other) == Listeners(reg, other)
  {
  }

  /** A successful `on(event, callback)`: the callback is appended after
      every earlier one of the same event; other events are untouched. */
  function Subscribed<K>(reg: Registry<K>, event: K, callback: CallbackId): (r: Registry<K>)
    ensures r.Keys == reg.Keys + {event}
    ensures Listeners(r, event) == Listeners(reg, event) + [callback]
    ensures forall e | e in reg && e != event :: r[e] == reg[e]
  {
    var withEvent := EnsuredEvent(reg, event);
    withEvent[event := withEvent[event] + [callback]]
  }

  /** A run of successful `on(event, …)` calls, one per element of `callbacks`. */
  function SubscribedAll<K>(reg: Registry<K>, event: K, callbacks: seq<CallbackId>): Registry<K>
    decreases |callbacks|
  {
    if callbacks == [] then reg
    else SubscribedAll(Subscribed(reg, event, callbacks[0]), event, callbacks[1..])
  }

  /** After registering `callbacks` in turn, `emit` calls the earlier
      listeners and then exactly those callbacks, in registration order. */
  lemma {:induction false} ListenersAfterSubscriptions<K>(reg: Registry<K>, event: K, callbacks: seq<CallbackId>)
    ensures Listeners(SubscribedAll(reg, event, callbacks), event) == Listeners(reg, event) + callbacks
    decreases |callbacks|
  {
    if callbacks != [] {
      var next := Subscribed(reg, event, callbacks[0]);
      ListenersAfterSubscriptions(next, event, callbacks[1..]);
      assert [callbacks[0]] + callbacks[1..] == callbacks;
    }
  }

  /** Registering callbacks for one event never changes what `emit` calls for
      another. */
  lemma {:induction false} SubscriptionsLeaveOthers<K>(reg: Registry<K>, event: K, other: K, callbacks: seq<CallbackId>)
    requires other != event
    ensures Listeners(SubscribedAll(reg, event, callbacks), other) == Listeners(reg, other)
    decreases |callbacks|
  {
    if callbacks != [] {
      SubscriptionsLeaveOthers(Subscribed(reg, event, callbacks[0]), event, other, callbacks[1..]);
    }
  }

  /** Capacity, in words, of a list block after `ensureSize(minSize)` on a
      block of `capacity` words: `(minSize + 2)` words are needed; a block
      that holds them is kept, otherwise it is reallocated to exactly that
      size unless that exceeds `BLOCK_MAXSIZE` bytes. */
  function GrownCapacity(capacity: nat, minSize: nat): (r: Result<nat>)
    ensures r.Err? <==> capacity < minSize + 2 && (minSize + 2) * WORD_SIZE > BLOCK_MAXSIZE
    ensures r.Err? ==> r.error == InvalidLength
    ensures r.Ok? ==> minSize + 2 <= r.value && capacity <= r.value
    ensures r.Ok? && minSize + 2 <= capacity ==> r.value == capacity
    ensures r.Ok? && capacity < minSize + 2 ==> r.value == minSize + 2 && r.value * WORD_SIZE <= BLOCK_MAXSIZE
  {
    var currentSize := capacity * WORD_SIZE;
    var byteLength := (minSize + 2) * WORD_SIZE;
    if byteLength > currentSize then
      if byteLength > BLOCK_MAXSIZE then Err(InvalidLength) else Ok(byteLength / WORD_SIZE)
    else
      Ok(capacity)
  }

  /** The list of one event: the `count` header word and the block, word by
      word, so that `|words|` is the block's capacity. Words 1 .. `count`
      hold the callbacks in registration order. */
  datatype EventList = EventList(count: nat, words: seq<CallbackId>) {

    /** Every slot written so far lies in the block, with the spare word
        `ensureSize` asks for; a block larger than the initial one was grown
        by `ensureSize` and so is within `BLOCK_MAXSIZE`. */
    ghost predicate Valid() {
      && count + 2 <= |words|
      && (|words| <= INITIAL_WORDS || |words| * WORD_SIZE <= BLOCK_MAXSIZE)
    }

    /** The callbacks in slots 1 .. `count`. */
    function Callbacks(): seq<CallbackId>
      requires count < |words|
    {
      words[1..count + 1]
    }
  }

  /** The list `_ensureEvent` allocates: no callbacks, room for four. */
  function NewList(): (list: EventList)
    ensures list.Valid() && list.count == 0 && list.Callbacks() == []
    ensures |list.words| == INITIAL_WORDS
  {
    EventList(0, seq(INITIAL_WORDS, _ => 0))
  }

  /** The list `_ensureEvent` files as the code is written: the block comes
      from `__alloc`, which does not clear it, and nothing writes the header,
      so `count` is whatever word 0 of the block held. Only a zeroed block
      gives `NewList()`; any other header makes the stale words behind it
      callbacks, or, above three, points past the block. */
  function AllocatedList(block: seq<CallbackId>): (list: EventList)
    requires |block| == INITIAL_WORDS
    ensures list.Valid() <==> block[0] + 2 <= INITIAL_WORDS
    ensures list.Valid() ==> list.Callbacks() == block[1..block[0] + 1]
  {
    EventList(block[0], block)
  }

  /** A reused block whose first words read 2, 7, 8 gives a list that `emit`
      dispatches to callbacks 7 and 8 before any `on`. */
  lemma StaleHeaderCallsStaleSlots()
    ensures AllocatedList([2, 7, 8, 0, 0]).Callbacks() == [7, 8]
    ensures !AllocatedList([1000, 0, 0, 0, 0]).Valid()
  {
    assert [2, 7, 8, 0, 0][1..3] == [7, 8];
  }

  /** A zeroed block gives exactly the list `_ensureEvent` means to file. */
  lemma ZeroedBlockGivesNewList()
    ensures AllocatedList(seq(INITIAL_WORDS, _ => 0)) == NewList()
  {
  }

  /** `ensureSize(minSize)`: the list itself when `(minSize + 2)` words fit,
      otherwise the list moved to a block of exactly that many words with
      the old words in front (the words after them are never read), or a
      RangeError when that block would exceed `BLOCK_MAXSIZE`. */
  function EnsureSize(list: EventList, minSize: nat): (r: Result<EventList>)
    ensures r.Err? <==> GrownCapacity(|list.words|, minSize).Err?
    ensures r.Err? ==> r.error == InvalidLength
    ensures r.Ok? ==> r.value.count == list.count && list.words <= r.value.words
    ensures r.Ok? ==> |r.value.words| == GrownCapacity(|list.words|, minSize).value
    ensures r.Ok? && minSize + 2 <= |list.words| ==> r.value == list
    ensures r.Ok? && list.count < |list.words| ==> r.value.Callbacks() == list.Callbacks()
  {
    match GrownCapacity(|list.words|, minSize)
    case Err(error) => Err(error)
    case Ok(capacity) =>
      if capacity == |list.words| then Ok(list)
      else Ok(list.(words := list.words + seq(capacity - |list.words|, _ => 0)))
  }

  /** The source computes `(minSize + 2) << 2` in 32-bit `usize`. For the
      `minSize` that `on` passes, the bumped count of a valid list, the
      product stays below 2^32, so the unbounded arithmetic of this model is
      the source's arithmetic. */
  lemma {:induction false} SizeInBytesFitsU32(list: EventList)
    requires list.Valid()
    ensures (list.count + 1 + 2) * WORD_SIZE < 0x1_0000_0000
  {
  }

  /** Storing a callback in slot `count` of a list whose count was just
      bumped and whose block kept the old words in front appends the
      callback to the old callbacks. */
  lemma StoreAppends(before: EventList, after: EventList, callback: CallbackId)
    requires before.count < |before.words| && before.words <= after.words
    requires after.count == before.count + 1 && after.count < |after.words|
    ensures after.(words := after.words[after.count := callback]).Callbacks() == before.Callbacks() + [callback]
  {
    assert after.words[1..after.count] == before.words[1..before.count + 1];
  }

  /** Every list of the map is valid. */
  ghost predicate AllValid<K>(lists: map<K, EventList>) {
    forall e | e in lists :: lists[e].Valid()
  }

  /** The callbacks of every event of the map. */
  function Abstraction<K>(lists: map<K, EventList>): Registry<K>
    requires AllValid(lists)
  {
    map e | e in lists :: lists[e].Callbacks()
  }

  /** Replacing one list replaces that event's callbacks and nothing else. */
  lemma AbstractionUpdate<K>(lists: map<K, EventList>, event: K, list: EventList)
    requires AllValid(lists) && list.Valid()
    ensures AllValid(lists[event := list])
    ensures Abstraction(lists[event := list]) == Abstraction(lists)[event := list.Callbacks()]
  {
  }

  /** Filing a list under an event overrides whatever `_ensureEvent` filed
      there, so only that event's entry differs from the map before. */
  lemma RefiledOverEnsured<K>(lists: map<K, EventList>, event: K, list: EventList)
    ensures (if event in lists then lists else lists[event := NewList()])[event := list] == lists[event := list]
  {
  }

  class EventEmitter<K(==)> {
    var events: map<K, EventList>

    ghost predicate Valid()
      reads this
    {
      AllValid(events)
    }

    /** The emitter as a value. */
    ghost function Registered(): Registry<K>
      reads this
      requires Valid()
    {
      Abstraction(events)
    }

    /** Words in the block `on(event, …)` would find: the initial size for an
        event not yet seen. */
    ghost function Capacity(event: K): nat
      reads this
    {
      if event in events then |events[event].words| else INITIAL_WORDS
    }

    constructor ()
      ensures events == map[]
      ensures Valid() && Registered() == map[]
    {
      events := map[];
    }

    /** `_ensureEvent(event)`. */
    method EnsureEvent(event: K)
      requires Valid()
      modifies this
      ensures Valid() && Registered() == EnsuredEvent(old(Registered()), event)
      ensures events == if event in old(events) then old(events) else old(events)[event := NewList()]
      ensures event in events && Capacity(event) == old(Capacity(event))
    {
      if event !in events {
        AbstractionUpdate(events, event, NewList());
        events := events[event := NewList()];
      }
    }

    /** `on(event, callback)`, returning the emitter for chaining. The list
        is updated where it is filed: growth is taken to happen in place. */
    method On(event: K, callback: CallbackId) returns (r: Result<EventEmitter<K>>)
      requires Valid()
      modifies this
      ensures r.Err? <==> GrownCapacity(old(Capacity(event)), |Listeners(old(Registered()), event)| + 1).Err?
      ensures r.Ok? ==> r.value == this && Valid()
      ensures r.Ok? ==> event in events && events == old(events)[event := events[event]]
      ensures r.Ok? ==> Registered() == Subscribed(old(Registered()), event, callback)
      ensures r.Ok? ==> events[event].count == |Listeners(old(Registered()), event)| + 1
      ensures r.Ok? ==> Capacity(event) == GrownCapacity(old(Capacity(event)), events[event].count).value
      ensures r.Err? ==> r.error == InvalidLength && event in old(events)
      ensures r.Err? ==> events == old(events)[event := old(events)[event].(count := old(events)[event].count + 1)]
    {
      EnsureEvent(event);
      ghost var ensured := events;
      var list := events[event];
      ghost var before := list;
      list := list.(count := list.count + 1);
      events := events[event := list];
      var grown := EnsureSize(list, list.count);
      if grown.Err? {
        return Err(InvalidLength);
      }
      list := grown.value;
      StoreAppends(before, list, callback);
      list := list.(words := list.words[list.count := callback]);
      AbstractionUpdate(ensured, event, list);
      events := events[event := list];
      RefiledOverEnsured(old(events), event, list);
      return Ok(this);
    }

    /** `emit(event, data)`: walks slots 1 .. `count` with a word pointer and
        calls each callback with `data`; the calls made are returned in
        order, together with the emitter for chaining. */
    method Emit<T>(event: K, data: T) returns (self: EventEmitter<K>, calls: seq<Invocation<T>>)
      requires Valid()
      ensures self == this
      ensures |calls| == |Listeners(Registered(), event)|
      ensures forall i | 0 <= i < |calls| :: calls[i] == Invocation(Listeners(Registered(), event)[i], data)
    {
      calls := [];
      if event in events {
        var list := events[event];
        var count := list.count;
        var start := 1;
        for i := 0 to count
          invariant start == i + 1
          invariant |calls| == i
          invariant forall k | 0 <= k < i :: calls[k] == Invocation(list.words[k + 1], data)
        {
          calls := calls + [Invocation(list.words[start], data)];
          start := start + 1;
        }
      }
      self := this;
    }
  }

  /** The registration test: one callback on "data", emitted three times,
      is called three times with the emitted value. */
  method EmitExample()
  {
    var emitter := new EventEmitter<string>();
    var chained := emitter.On("data", 7);
    assert chained.Ok?;
    var first, second, third, calls: seq<Invocation<int>>;
    var self;
    self, first := emitter.Emit("data", 42);
    self, second := emitter.Emit("data", 42);
    self, third := emitter.Emit("data", 42);
    calls := first + second + third;
    assert calls == [Invocation(7, 42), Invocation(7, 42), Invocation(7, 42)];
    var silent;
    self, silent := emitter.Emit("other", 42);
    assert silent == [];
  }
}
