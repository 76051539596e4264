/** `Buffer`, a `Uint8Array` whose storage is allocated on construction, either
    zero-filled (`new Buffer`, `Buffer.alloc`) or left as the allocator returns
    it (`Buffer.allocUnsafe`). */
module Buffers {
  import opened Runtime

  /** The size check every allocation path makes: `u32(size) > BLOCK_MAXSIZE`
      throws. Read unsigned, a negative `size` is at least 2^31 and so always
      too large: the single unsigned comparison is the two-sided range check. */
  function ValidatedSize(size: I32): (r: Result<nat>)
    ensures r.Ok? <==> 0 <= size <= BLOCK_MAXSIZE
    ensures r.Ok? ==> r.value == size
    ensures r.Err? ==> r.error == InvalidLength
  {
    if ToU32(size) > BLOCK_MAXSIZE then Err(InvalidLength) else Ok(size as nat)
  }

  /** A view of `dataLength` bytes starting `dataStart` bytes into the
      backing block `data` (the source keeps `dataStart` as an absolute
      pointer; here it is the offset from the start of `data`). */
  class Buffer {
    var data: array<bv8>
    var dataStart: nat
    var dataLength: nat

    ghost predicate Valid()
      reads this
    {
      dataStart + dataLength <= data.Length
    }

    /** `length` and `byteLength`, which coincide for a byte array. */
    function Length(): nat
      reads this
    {
      dataLength
    }

    /** The bytes the view shows. */
    ghost function Contents(): seq<bv8>
      reads this, data
      requires Valid()
    {
      data[dataStart..dataStart + dataLength]
    }

    /** Sets the three fields an `ArrayBufferView` is made of. */
    constructor View(block: array<bv8>, start: nat, length: nat)
      requires start + length <= block.Length
      ensures Valid()
      ensures data == block && dataStart == start && dataLength == length
    {
      data := block;
      dataStart := start;
      dataLength := length;
    }

    /** `new Buffer(size)`: the `Uint8Array` constructor rejects `size` by the
        same unsigned check, then allocates `size` bytes and zero-fills them. */
    static method Create(size: I32) returns (r: Result<Buffer>)
      ensures r.Err? <==> ValidatedSize(size).Err?
      ensures r.Err? ==> r.error == InvalidLength
      ensures r.Ok? ==> fresh(r.value) && fresh(r.value.data) && r.value.Valid()
      ensures r.Ok? ==> r.value.dataStart == 0 && r.value.Length() == size == r.value.data.Length
      ensures r.Ok? ==> r.value.Contents() == seq(size, _ => 0 as bv8)
    {
      if ToU32(size) > BLOCK_MAXSIZE {
        return Err(InvalidLength);
      }
      var block := new bv8[size](_ => 0 as bv8);
      var buffer := new Buffer.View(block, 0, size);
      return Ok(buffer);
    }

    /** `Buffer.alloc(size)`, which is `new Buffer(size)`. */
    static method Alloc(size: I32) returns (r: Result<Buffer>)
      ensures r.Err? <==> ValidatedSize(size).Err?
      ensures r.Err? ==> r.error == InvalidLength
      ensures r.Ok? ==> fresh(r.value) && fresh(r.value.data) && r.value.Valid()
      ensures r.Ok? ==> r.value.dataStart == 0 && r.value.Length() == size == r.value.data.Length
      ensures r.Ok? ==> r.value.Contents() == seq(size, _ => 0 as bv8)
    {
      r := Create(size);
    }

    /** `Buffer.allocUnsafe(size)`: the same check, then a fresh block of
        exactly `size` bytes viewed from offset 0. Nothing is promised about
        the bytes themselves. */
    static method AllocUnsafe(size: I32) returns (r: Result<Buffer>)
      ensures r.Err? <==> ValidatedSize(size).Err?
      ensures r.Err? ==> r.error == InvalidLength
      ensures r.Ok? ==> fresh(r.value) && fresh(r.value.data) && r.value.Valid()
      ensures r.Ok? ==> r.value.dataStart == 0 && r.value.Length() == size == r.value.data.Length
    {
      if ToU32(size) > BLOCK_MAXSIZE {
        return Err(InvalidLength);
      }
      var block := new bv8[size];
      var result := new Buffer.View(block, 0, 0);
      result.data := block;
      result.dataStart := 0;
      result.dataLength := size;
      return Ok(result);
    }
  }

  /** What a caller can conclude from the contracts alone, for the sizes the
      buffer tests use. */
  method AllocationExamples()
    requires 100 <= BLOCK_MAXSIZE
  {
    var empty := Buffer.Create(0);
    assert empty.Ok? && empty.value.Length() == 0;
    var negative := Buffer.Create(-1);
    assert negative == Err(InvalidLength);

    var zeroed := Buffer.Alloc(100);
    assert zeroed.Ok? && zeroed.value.Length() == 100;
    assert forall i | 0 <= i < 100 :: zeroed.value.Contents()[i] == 0;
    var rejected := Buffer.Alloc(-1);
    assert rejected.Err?;

    var raw := Buffer.AllocUnsafe(100);
    assert raw.Ok? && raw.value.Length() == 100;
    var rawRejected := Buffer.AllocUnsafe(-1);
    assert rawRejected.Err?;
  }

  /** `alloc` and `allocUnsafe` agree on every size: both fail or both give a
      fresh, unshared block of the requested length. */
  method AllocMatchesAllocUnsafe(size: I32) {
    var zeroed := Buffer.Alloc(size);
    var raw := Buffer.AllocUnsafe(size);
    assert zeroed.Ok? <==> raw.Ok?;
    if zeroed.Ok? {
      assert zeroed.value.Length() == raw.value.Length() == size;
      assert zeroed.value != raw.value && zeroed.value.data != raw.value.data;
    }
  }
}
