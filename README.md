# AssemblyScript `node` library: Buffer allocation and EventEmitter

This project models the two pieces of executable logic in the AssemblyScript
port of Node's `buffer` and `events` modules, and proves their properties
in Dafny.

- **Buffer allocation** (`assembly/buffer/index.ts`). `Buffer` is a `Uint8Array`
  made of three fields: the backing block `data`, the start offset `dataStart`
  and the length `dataLength`. `new Buffer(size)` and `Buffer.alloc(size)` give
  `size` zero bytes. `Buffer.allocUnsafe(size)` gives a fresh block of `size`
  bytes whose contents are unspecified. All three reject a size when
  `u32(size) > BLOCK_MAXSIZE`. Read unsigned, a negative `i32` is at least
  2^31, so this single comparison also rejects every negative size. The model
  has a `Buffer` class with those three fields. Its static methods return
  `Result<Buffer>`, where `Err(InvalidLength)` stands for the thrown
  `RangeError(E_INVALIDLENGTH)`.
- **EventEmitter** (`assembly/events/index.ts`). The emitter maps each event
  name to an `EventList`: a block of machine words whose header is `count` and
  whose slots 1 .. `count` hold callback table indices.
  - `_ensureEvent` files a new list, with room for four slots, only for an
    unseen name.
  - `on` bumps `count`, calls `ensureSize(count)` and stores the callback in
    slot `count`.
  - `ensureSize(minSize)` keeps the block when `minSize + 2` words fit.
    Otherwise it reallocates to exactly that many words, or throws when that
    exceeds `BLOCK_MAXSIZE` bytes.
  - `emit` walks slots 1 .. `count` and calls each callback with the data.

  In the model, `EventEmitter` is a class whose `events` map the methods
  reassign. Each `EventList` is a value: a count plus its block as a sequence
  of words. Callbacks are opaque ids. `Emit` returns the calls it makes, as a
  sequence of `Invocation(callback, data)`.

  `Registered()` abstracts the emitter to a map from name to the sequence of
  callbacks. `On` and `EnsureEvent` are proved against the value-level
  functions `Subscribed` and `EnsuredEvent`, and `Emit` against `Listeners`.
  `ListenersAfterSubscriptions` then proves that `emit` calls every callback
  registered for the event, once each and in registration order.
  `SubscriptionsLeaveOthers` proves that registrations never change another
  event's listeners.

Modules:
- `Runtime` (runtime.dfy) holds `i32`, `u32`, the word size, the abstract
  `BLOCK_MAXSIZE` and the error type.
- `Buffers` (buffer.dfy) holds the buffer.
- `Events` (events.dfy) holds the emitter.

`BLOCK_MAXSIZE` is an abstract constant below 2^31. Every proof holds for
any such value.

## Model

| member | source | states |
|---|---|---|
| Runtime.ToU32 | assembly/buffer/index.ts:15 | `u32(x)` is the unique value below 2^32 congruent to `x` modulo 2^32 |
| Buffers.ValidatedSize | assembly/buffer/index.ts:15 | the unsigned check `u32(size) > BLOCK_MAXSIZE` passes exactly when `0 <= size <= BLOCK_MAXSIZE`, so every negative size is rejected with `InvalidLength` |
| Buffers.Buffer.Create | assembly/buffer/index.ts:5-7 | `new Buffer(size)` fails with `InvalidLength` exactly for rejected sizes; otherwise it gives a fresh buffer over a fresh block, from offset 0, with `length == size` and every byte 0 |
| Buffers.Buffer.Alloc | assembly/buffer/index.ts:9-11 | `alloc(size)` behaves as `new Buffer(size)`: the same error condition, and `size` zero bytes in a fresh block |
| Buffers.Buffer.AllocUnsafe | assembly/buffer/index.ts:13-26 | `allocUnsafe(size)` throws exactly for rejected sizes; otherwise `data` is a fresh block of exactly `size` bytes, `dataStart` is its offset 0 and `dataLength == size`, with the contents unspecified |
| Events.EnsuredEvent | assembly/events/index.ts:26-31 | `_ensureEvent` adds the event with no callbacks only when it is absent, and leaves every existing list as it was |
| Events.EnsuredEventUnobservable | assembly/events/index.ts:26-31 | filing an empty list changes no event's listeners |
| Events.Subscribed | assembly/events/index.ts:38-42 | a successful `on` appends the callback after the event's earlier callbacks and leaves every other event unchanged |
| Events.ListenersAfterSubscriptions | assembly/events/index.ts:38-54 | after a run of `on(event, c)` calls, `emit(event)` calls the earlier listeners and then exactly those callbacks, in registration order |
| Events.SubscriptionsLeaveOthers | assembly/events/index.ts:38-42 | registrations for one event never change another event's listeners |
| Events.GrownCapacity | assembly/events/index.ts:9-19 | `ensureSize` throws exactly when `minSize + 2` words do not fit and exceed `BLOCK_MAXSIZE` bytes; a block that fits is kept; otherwise the block grows to exactly `minSize + 2` words |
| Events.NewList | assembly/events/index.ts:28-29 | a new list has count 0, no callbacks and a five-word block: the header plus four slots |
| Events.EnsureSize | assembly/events/index.ts:8-20 | `ensureSize` fails exactly when `GrownCapacity` does; otherwise `count` and the callbacks are preserved, the old words stay in front, and the same list is returned when it fits |
| Events.SizeInBytesFitsU32 | assembly/events/index.ts:10 | for a valid list, the `usize` computation `(count + 2) << 2` that `on` triggers cannot wrap around 2^32 |
| Events.StoreAppends | assembly/events/index.ts:40-42 | bumping `count`, keeping the old words in front and storing in slot `count` appends the callback to the list's callbacks |
| Events.AllocatedList | assembly/events/index.ts:28-30 | as written, a filed list's `count` is word 0 of an uncleared block: the list is well formed only when that word is at most 3, and then its callbacks are the stale words 1 .. `count` |
| Events.StaleHeaderCallsStaleSlots | assembly/events/index.ts:28-30 | a block whose first words read 2, 7, 8 yields callbacks 7 and 8 before any `on`; a header of 1000 yields a list whose slots lie past the block |
| Events.ZeroedBlockGivesNewList | assembly/events/index.ts:28-30 | a zeroed block yields exactly the empty list `NewList` |
| Events.EventEmitter.constructor | assembly/events/index.ts:24 | a new emitter has no events, so every event has the initial capacity |
| Events.EventEmitter.EnsureEvent | assembly/events/index.ts:26-32 | the registry becomes `EnsuredEvent` of the old one; a new list is filed only for an absent event; the event's block capacity is unchanged |
| Events.EventEmitter.On | assembly/events/index.ts:34-44 | `on` returns the emitter itself for chaining. It fails exactly when `ensureSize(count + 1)` would throw, and then `count` is already bumped. On success the registry becomes `Subscribed` of the old one, `count` is one more than before, the capacity is `GrownCapacity` of the old one, and every other event's list, capacity included, is as it was |
| Events.EventEmitter.Emit | assembly/events/index.ts:46-57 | `emit` returns the emitter, makes one call per registered callback in slot order, each with the same data, and none for an unknown event; it modifies nothing |

## Left out

- Buffer's richer API, exercised by tests/buffer.spec.ts: the `read*`/`write*` accessors, float accessors, `subarray`, `swap16/32/64`, `from*`, `isBuffer` and `HEX`. No implementation of it exists in the code modelled here.
- assembly/node.d.ts (declarations only), assembly/fs/index.ts (a stub), tests/node.js and index.js (host-side harness scripts) are not part of this model.
- The `Uint8Array` constructor and `rt/common` are not part of this model. Buffers.Buffer.Create gives `new Buffer(size)` the same unsigned size check as `allocUnsafe`, then `size` zero bytes. The zero bytes rest on assembly/node.d.ts:2 and tests/buffer.spec.ts:37-41. Rejecting negative sizes rests on tests/buffer.spec.ts:30 and 42. Rejecting sizes above `BLOCK_MAXSIZE` is assumed to match `allocUnsafe`.
- Allocator internals (`__alloc`, `__realloc`, block headers, `BLOCK_OVERHEAD`) are foreign. A block's capacity, `rtSize`, is taken to be the size last requested for it, counted in words.
- Events.EventEmitter.EnsureEvent files `NewList`, whose `count` is 0. The source never writes `count` (assembly/events/index.ts:28-30), and `__alloc` does not clear a block: `allocUnsafe` returns unzeroed data from the same call (assembly/node.d.ts:4). So the source relies on a zeroed block that its own allocator does not promise. `AllocatedList` models the list as written; see Findings.
- Events.EventEmitter.On: growth is taken to happen in place, and the grown list is written back under its event. The source reassigns only the local `list` (assembly/events/index.ts:41). If `__realloc` moves the block, the map keeps the old pointer, and the model does not capture that case.
- Events.EventList: a list is a value inside the emitter's map, not an object in the heap. List identity and aliasing between lists are not modelled.
- `call_indirect` is foreign. `Emit` records each call as an `Invocation` and returns the calls in order instead of making them. What the callbacks themselves do, including re-entering the emitter, is not modelled.
- The compile-time `isFunction<T>()`/`ERROR` check in `on` is left out, since callbacks are opaque ids.
- `registerEventCallback` and the two-argument `emit` used by tests/events.spec.ts do not exist in the emitter.
- Events.EventEmitter.Emit: the `u32` truncation of the loaded slot before `call_indirect` is not modelled, since callback ids are unbounded.
- Integers are unbounded. `usize` arithmetic on counts is shown not to wrap by `SizeInBytesFitsU32`. The model does not otherwise track 32-bit widths.

## Findings

| source | as written | input that shows it | evidently intended | confidence | as-written member | corrected member |
|---|---|---|---|---|---|---|
| assembly/events/index.ts:28-30 | `_ensureEvent` files a block from `__alloc` and never sets `count`, so `count` is whatever the block's first word held | a reused block whose first words are 2, 7, 8: `emit` calls callbacks 7 and 8 although nothing was registered; a first word of 1000 makes `emit` read past the block | a new list starts with `count` 0 and no callbacks | medium, not executed; it depends on `__alloc` handing back a block that is not zero | Events.AllocatedList, Events.StaleHeaderCallsStaleSlots | Events.NewList, Events.ZeroedBlockGivesNewList |
