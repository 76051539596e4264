/** Facts about the AssemblyScript runtime that both the buffer and the event
    emitter rely on: 32-bit integers, the machine word, the largest block the
    allocator hands out, and the RangeError the library throws. */
module Runtime {

  /** A signed 32-bit integer (`i32`). */
  type I32 = x: int | -0x8000_0000 <= x < 0x8000_0000

  /** The largest payload, in bytes, of one runtime block. Its exact value is
      the allocator's business; all the model needs is that it is below 2^31,
      as `(1 << 30) - BLOCK_OVERHEAD` is on wasm32. */
  type BlockMaxSize = n: nat | n < 0x8000_0000

  const BLOCK_MAXSIZE: BlockMaxSize

  /** Bytes in a `usize` on wasm32 (`1 << alignof<usize>()`). */
  const WORD_SIZE: nat := 4

  /** The only error the core raises: `RangeError(E_INVALIDLENGTH)`. */
  datatype Error = InvalidLength

  /** The outcome of an operation that may throw. */
  datatype Result<T> = Ok(value: T) | Err(error: Error)

  /** `u32(x)`: the two's-complement reinterpretation of an `i32` as unsigned,
      i.e. the unique value in [0, 2^32) congruent to `x` modulo 2^32. */
  function ToU32(x: I32): (r: nat)
    ensures r < 0x1_0000_0000
    ensures r % 0x1_0000_0000 == x % 0x1_0000_0000
  {
    if x < 0 then x + 0x1_0000_0000 else x
  }
}
