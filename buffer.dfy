/**
 * The buffer views that the copy check reads.
 *
 * A `BufferAccess` is a view of part of an `UnsafeBuffer` (the Vulkan buffer object):
 * `inner()` gives the underlying buffer and the view's offset in it, `size()` the
 * view's length in bytes. The device and the usage bits belong to the underlying buffer.
 *
 * The conflict query `conflicts_buffer` is an abstract predicate (`ConflictFn`);
 * `Symmetric` says it answers the same in both directions, which is what the copy
 * check's debug assertion expects of it. `ReferenceConflicts`
 * is one symmetric instance of that interface (two views conflict when they share an
 * underlying buffer and their byte ranges in it intersect); it is used to state concrete
 * scenarios, not as a model of any particular buffer type.
 */
module Buffer {

  /** Opaque, comparable identity of a logical device. */
  type DeviceId = nat

  /** Opaque, comparable identity of a Vulkan buffer object. */
  type BufferHandle = nat

  /**
   * The Vulkan buffer object: its handle, its device and the two usage bits the copy check reads.
   * A real buffer object's device and usage are fixed when it is created, so they are a function
   * of its handle; values that share a handle are meant to agree on the other fields. Nothing
   * proved here depends on that.
   */
  datatype UnsafeBuffer = UnsafeBuffer(
    handle: BufferHandle,
    device: DeviceId,
    usageTransferSrc: bool,
    usageTransferDest: bool)

  /** What `inner()` returns: the underlying buffer and the view's byte offset in it. */
  datatype InnerBuffer = InnerBuffer(buffer: UnsafeBuffer, offset: nat)

  /** A view of a buffer: its underlying buffer and its length in bytes. */
  datatype BufferAccess = BufferAccess(inner: InnerBuffer, size: nat)

  /**
   * `a.conflicts_buffer(aOffset, aSize, b, bOffset, bSize)`: whether range
   * [aOffset, aOffset + aSize) of view `a` and range [bOffset, bOffset + bSize)
   * of view `b` may denote the same memory.
   */
  type ConflictFn = (BufferAccess, nat, nat, BufferAccess, nat, nat) -> bool

  /** The conflict query gives the same answer whichever view it is asked of. */
  ghost predicate Symmetric(conflicts: ConflictFn) {
    forall a: BufferAccess, aOffset: nat, aSize: nat, b: BufferAccess, bOffset: nat, bSize: nat ::
      conflicts(a, aOffset, aSize, b, bOffset, bSize) == conflicts(b, bOffset, bSize, a, aOffset, aSize)
  }

  /**
   * The bytes [start, start + len), the set of addresses a (offset, size) pair denotes. It is
   * built one byte at a time only so that its membership can be stated and proved; the
   * recursion models nothing in the copy check.
   */
  function Bytes(start: nat, len: nat): (r: set<nat>)
    ensures forall x :: x in r <==> start <= x < start + len
  {
    if len == 0 then {} else Bytes(start, len - 1) + {start + len - 1}
  }

  /** Interval test: ranges [aStart, aStart + aLen) and [bStart, bStart + bLen) intersect. */
  predicate RangesOverlap(aStart: nat, aLen: nat, bStart: nat, bLen: nat) {
    aLen > 0 && bLen > 0 && aStart < bStart + bLen && bStart < aStart + aLen
  }

  /** The interval test is exact: it holds precisely when the two ranges share a byte. */
  lemma RangesOverlapIffShareByte(aStart: nat, aLen: nat, bStart: nat, bLen: nat)
    ensures RangesOverlap(aStart, aLen, bStart, bLen) <==> Bytes(aStart, aLen) * Bytes(bStart, bLen) != {}
  {
  }

  /**
   * A reference conflict query: the two views are on the same buffer object and the
   * requested ranges, shifted by each view's offset, intersect.
   */
  predicate ReferenceConflicts(a: BufferAccess, aOffset: nat, aSize: nat, b: BufferAccess, bOffset: nat, bSize: nat) {
    && a.inner.buffer.handle == b.inner.buffer.handle
    && RangesOverlap(a.inner.offset + aOffset, aSize, b.inner.offset + bOffset, bSize)
  }

  /** The reference query reports a conflict exactly when the two views share a byte of one buffer object. */
  lemma ReferenceConflictsIffSharedByte(a: BufferAccess, aOffset: nat, aSize: nat, b: BufferAccess, bOffset: nat, bSize: nat)
    ensures ReferenceConflicts(a, aOffset, aSize, b, bOffset, bSize) <==>
      && a.inner.buffer.handle == b.inner.buffer.handle
      && Bytes(a.inner.offset + aOffset, aSize) * Bytes(b.inner.offset + bOffset, bSize) != {}
  {
  }

  /** The reference query meets the interface's symmetry requirement. */
  lemma ReferenceConflictsSymmetric()
    ensures Symmetric(ReferenceConflicts)
  {
  }
}
