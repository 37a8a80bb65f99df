/**
 * The pre-recording validity check for a buffer-to-buffer copy (`vkCmdCopyBuffer`):
 * the source must carry the transfer-source usage, the destination the
 * transfer-destination usage, and the copied ranges must not overlap in memory.
 * The checks run in that order and the first one that fails decides the error.
 */
module CopyBuffer {
  import opened Wrappers
  import opened Buffer

  /** Why a copy between two buffers was rejected. */
  datatype CheckCopyBufferError =
    | SourceMissingTransferUsage
    | DestinationMissingTransferUsage
    | OverlappingRanges

  /** The error's human-readable description. */
  function Description(e: CheckCopyBufferError): (s: string)
    ensures e == SourceMissingTransferUsage <==> s == "the source buffer is missing the transfer source usage"
    ensures e == DestinationMissingTransferUsage <==> s == "the destination buffer is missing the transfer destination usage"
    ensures e == OverlappingRanges <==> s == "the source and destination are overlapping"
  {
    match e
    case SourceMissingTransferUsage => "the source buffer is missing the transfer source usage"
    case DestinationMissingTransferUsage => "the destination buffer is missing the transfer destination usage"
    case OverlappingRanges => "the source and destination are overlapping"
  }

  /** Each error has its own description, so the description identifies the error. */
  lemma DescriptionInjective()
    ensures forall e1, e2 :: Description(e1) == Description(e2) <==> e1 == e2
  {
  }

  /** What formatting an error with `{}` writes: its description. */
  function Display(e: CheckCopyBufferError): (s: string)
    ensures s == Description(e)
    ensures forall other :: Description(other) == s ==> other == e
  {
    DescriptionInjective();
    Description(e)
  }

  /** The number of bytes the copy transfers, from offset 0 of both views: the smaller of the two sizes. */
  function CopySize(source: BufferAccess, destination: BufferAccess): (n: nat)
    ensures n <= source.size && n <= destination.size
    ensures n == source.size || n == destination.size
  {
    if source.size < destination.size then source.size else destination.size
  }

  /**
   * What the debug assertion in the accepting branch demands: once both usages are
   * present and the query reports no conflict from source to destination, it reports
   * none from destination to source either, for the same ranges [0, CopySize).
   * A debug build panics exactly when this fails.
   */
  predicate DebugAssertionHolds(source: BufferAccess, destination: BufferAccess, conflicts: ConflictFn): (holds: bool)
    ensures !holds <==>
      && source.inner.buffer.usageTransferSrc
      && destination.inner.buffer.usageTransferDest
      && !conflicts(source, 0, CopySize(source, destination), destination, 0, CopySize(source, destination))
      && conflicts(destination, 0, CopySize(source, destination), source, 0, CopySize(source, destination))
  {
    var n := CopySize(source, destination);
    source.inner.buffer.usageTransferSrc && destination.inner.buffer.usageTransferDest ==>
      conflicts(source, 0, n, destination, 0, n) || !conflicts(destination, 0, n, source, 0, n)
  }

  /** A symmetric conflict query never trips the debug assertion. */
  lemma SymmetricMeetsDebugAssertion(source: BufferAccess, destination: BufferAccess, conflicts: ConflictFn)
    requires Symmetric(conflicts)
    ensures DebugAssertionHolds(source, destination, conflicts)
  {
  }

  /**
   * Checks whether copying `source` into `destination` on `device` is valid.
   * Both views must belong to `device` (the source panics otherwise), and the
   * debug assertion must hold (a debug build panics otherwise).
   */
  function CheckCopyBuffer(device: DeviceId, source: BufferAccess, destination: BufferAccess,
                           conflicts: ConflictFn): (r: Result<(), CheckCopyBufferError>)
    requires source.inner.buffer.device == device
    requires destination.inner.buffer.device == device
    requires DebugAssertionHolds(source, destination, conflicts)
    // first failure wins
    ensures !source.inner.buffer.usageTransferSrc ==> r == Err(SourceMissingTransferUsage)
    ensures source.inner.buffer.usageTransferSrc && !destination.inner.buffer.usageTransferDest ==>
      r == Err(DestinationMissingTransferUsage)
    ensures (&& source.inner.buffer.usageTransferSrc
             && destination.inner.buffer.usageTransferDest
             && conflicts(source, 0, CopySize(source, destination), destination, 0, CopySize(source, destination)))
      ==> r == Err(OverlappingRanges)
    // acceptance
    ensures r.Ok? <==>
      && source.inner.buffer.usageTransferSrc
      && destination.inner.buffer.usageTransferDest
      && !conflicts(source, 0, CopySize(source, destination), destination, 0, CopySize(source, destination))
    ensures r.Ok? ==>
      !conflicts(destination, 0, CopySize(source, destination), source, 0, CopySize(source, destination))
  {
    if !source.inner.buffer.usageTransferSrc then
      Err(SourceMissingTransferUsage)
    else if !destination.inner.buffer.usageTransferDest then
      Err(DestinationMissingTransferUsage)
    else
      var size := CopySize(source, destination);
      if conflicts(source, 0, size, destination, 0, size) then
        Err(OverlappingRanges)
      else
        assert !conflicts(destination, 0, size, source, 0, size);
        Ok(())
  }

  /**
   * Swapping source and destination does not change whether two buffers that both
   * carry both transfer usages may be copied.
   */
  lemma SwapPreservesAcceptance(device: DeviceId, a: BufferAccess, b: BufferAccess, conflicts: ConflictFn)
    requires a.inner.buffer.device == device && b.inner.buffer.device == device
    requires Symmetric(conflicts)
    requires a.inner.buffer.usageTransferSrc && a.inner.buffer.usageTransferDest
    requires b.inner.buffer.usageTransferSrc && b.inner.buffer.usageTransferDest
    ensures CheckCopyBuffer(device, a, b, conflicts) == CheckCopyBuffer(device, b, a, conflicts)
  {
  }

  /** Copying a non-empty view onto itself is rejected as overlapping, with the reference conflict query. */
  lemma SelfCopyRejected(device: DeviceId, b: BufferAccess)
    requires b.inner.buffer.device == device
    requires b.inner.buffer.usageTransferSrc && b.inner.buffer.usageTransferDest
    requires b.size > 0
    ensures CheckCopyBuffer(device, b, b, ReferenceConflicts) == Err(OverlappingRanges)
  {
  }

  /**
   * Two disjoint views of one 100-byte buffer, bytes [0, 40) and [50, 100), may be
   * copied one into the other, with the reference conflict query.
   */
  lemma DisjointSubViewsAccepted(device: DeviceId, handle: BufferHandle)
    ensures
      var whole := UnsafeBuffer(handle, device, true, true);
      var source := BufferAccess(InnerBuffer(whole, 0), 40);
      var destination := BufferAccess(InnerBuffer(whole, 50), 50);
      CheckCopyBuffer(device, source, destination, ReferenceConflicts) == Ok(())
  {
  }

  /** A copy of zero bytes is accepted once both usages are present, with the reference conflict query. */
  lemma ZeroLengthAccepted(device: DeviceId, source: BufferAccess, destination: BufferAccess)
    requires source.inner.buffer.device == device && destination.inner.buffer.device == device
    requires source.inner.buffer.usageTransferSrc && destination.inner.buffer.usageTransferDest
    requires source.size == 0 || destination.size == 0
    ensures CopySize(source, destination) == 0
    ensures CheckCopyBuffer(device, source, destination, ReferenceConflicts) == Ok(())
  {
  }
}
