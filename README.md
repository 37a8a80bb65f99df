# vulkano: validity check for a buffer-to-buffer copy

This project models `check_copy_buffer` from vulkano, a safe Rust wrapper around Vulkan.
The function runs on the host before a copy command is recorded into a command buffer.
It enforces part of the valid-usage rules of `vkCmdCopyBuffer` ("Copying Data Between
Buffers" in the Vulkan specification):

- the source buffer must have been created with the transfer-source usage;
- the destination buffer must have been created with the transfer-destination usage;
- the copied ranges of the two buffers must not overlap in memory.

The checks run in that order and the first failure decides the error. The copy moves
`min(source.size(), destination.size())` bytes, starting at offset 0 of both views, and
the overlap test is made on exactly those ranges. A source or destination that belongs to
another device is a programming error: the Rust code panics (`assert_eq!`) and returns no error.

The model is made of pure functions and lemmas, as the Rust code is:

- `wrappers.dfy` (module `Wrappers`): the `Result` type.
- `buffer.dfy` (module `Buffer`): the buffer view the check reads. A `BufferAccess` has an
  `inner` part, an `InnerBuffer` holding the underlying `UnsafeBuffer` and the view's offset
  in it, and a `size`. The device identity and the two usage bits belong to the
  `UnsafeBuffer`, because the Rust code reads them through `inner().buffer`. The conflict
  query `conflicts_buffer` is a function-typed parameter (`ConflictFn`). `Symmetric` states
  that the query answers the same in both directions; the check itself needs this only for
  the one pair of ranges its debug assertion looks at. `ReferenceConflicts` is one symmetric
  instance of that interface: two views conflict when they are views of the same buffer
  object and the requested byte ranges intersect. It is used to state concrete scenarios.
- `copy_buffer.dfy` (module `CopyBuffer`): the error enum, its description and display
  text, the copy length, the check itself and the lemmas about it.

Preconditions of `CheckCopyBuffer`:

- The two device `assert_eq!`s become `requires` clauses.
- The `debug_assert!` in the accepting branch becomes `requires DebugAssertionHolds(...)`.
  The assertion is reached only when both usages are present and the query reports no
  conflict from source to destination on [0, size). A debug build panics only when the
  query then reports a conflict from destination to source on the same ranges. Any other
  disagreement between the two directions returns normally with the forward verdict. With
  that requirement, the assertion is proved inside the function and appears as a
  postcondition. `SymmetricMeetsDebugAssertion` shows that a symmetric query always meets it.

Being a function, the check is deterministic and changes nothing. Neither buffer and no
device state is touched.

## Model

| member | source | states |
|---|---|---|
| `CopyBuffer.CheckCopyBuffer` | vulkano/src/command_buffer/validity/copy_buffer.rs:19-53 | Both views must belong to `device`, and the debug assertion must hold: with both usages present and no conflict reported from source to destination, none is reported from destination to source. A source without transfer-source usage gives `SourceMissingTransferUsage`, whatever the destination and any overlap. Otherwise a destination without transfer-destination usage gives `DestinationMissingTransferUsage`, whatever the overlap. Otherwise a conflict between `source[0, size)` and `destination[0, size)` gives `OverlappingRanges`. The result is `Ok(())` exactly when both usages are present and no conflict is reported. When it is `Ok`, the reverse query (destination against source) reports no conflict either. |
| `CopyBuffer.CopySize` | vulkano/src/command_buffer/validity/copy_buffer.rs:44 | The checked length is at most each view's size and equals one of them, so it is the minimum and never the larger of the two. |
| `CopyBuffer.SwapPreservesAcceptance` | vulkano/src/command_buffer/validity/copy_buffer.rs:44-52 | Take two views that both have both transfer usages, and a symmetric conflict query. Checking a copy from a into b gives the same result as checking a copy from b into a. |
| `CopyBuffer.DebugAssertionHolds` | vulkano/src/command_buffer/validity/copy_buffer.rs:46-50 | False exactly when both usages are present, no conflict is reported from source to destination on [0, size), and one is reported from destination to source on the same ranges. That is the only input on which a debug build panics at the assertion. |
| `CopyBuffer.SymmetricMeetsDebugAssertion` | vulkano/src/command_buffer/validity/copy_buffer.rs:46-50 | A conflict query that answers the same in both directions never makes the debug assertion fail, whatever the two views. |
| `CopyBuffer.Description` | vulkano/src/command_buffer/validity/copy_buffer.rs:68-80 | Maps each of the three error variants to its fixed description string, and each string back to its variant: "the source buffer is missing the transfer source usage", "the destination buffer is missing the transfer destination usage", "the source and destination are overlapping". |
| `CopyBuffer.DescriptionInjective` | vulkano/src/command_buffer/validity/copy_buffer.rs:55-81 | The three error variants have pairwise distinct fixed descriptions. Two errors have the same description exactly when they are the same error. |
| `CopyBuffer.Display` | vulkano/src/command_buffer/validity/copy_buffer.rs:83-88 | The displayed text of an error is its description, and that text identifies the error uniquely. |
| `CopyBuffer.SelfCopyRejected` | vulkano/src/command_buffer/validity/copy_buffer.rs:44-47 | Take a non-empty view with both usages and the reference conflict query. Copying the view onto itself is rejected with `OverlappingRanges`. |
| `CopyBuffer.DisjointSubViewsAccepted` | vulkano/src/command_buffer/validity/copy_buffer.rs:44-52 | Take the views of bytes [0, 40) and [50, 100) of one buffer, both usages present, and the reference conflict query. The copy is accepted. |
| `CopyBuffer.ZeroLengthAccepted` | vulkano/src/command_buffer/validity/copy_buffer.rs:44-52 | Let one of the two views be empty, with both usages present and the reference conflict query. The copy length is 0 and the copy is accepted. |
| `Buffer.Bytes` | vulkano/src/command_buffer/validity/copy_buffer.rs:46 | The byte range [start, start + len) that a conflict query is asked about contains exactly the addresses x with start <= x < start + len. |
| `Buffer.RangesOverlapIffShareByte` | vulkano/src/command_buffer/validity/copy_buffer.rs:46 | The interval test used by the reference query holds exactly when the two byte ranges share at least one byte. |
| `Buffer.ReferenceConflictsIffSharedByte` | vulkano/src/command_buffer/validity/copy_buffer.rs:46 | The reference conflict query holds exactly when the two views belong to the same buffer object and their requested ranges, shifted by each view's offset, share a byte. |
| `Buffer.ReferenceConflictsSymmetric` | vulkano/src/command_buffer/validity/copy_buffer.rs:46-50 | The reference conflict query gives the same answer in both directions, so it never makes the debug assertion fail. |

## Left out

- Vulkan handle identity (`internal_object()`, `inner().buffer.device()`) is modelled as comparable natural numbers (`DeviceId`, `BufferHandle`).
- The `conflicts_buffer` implementations of vulkano's buffer types and the `BufferAccess` trait are not part of this model. The check takes the query as a parameter and assumes only that it is symmetric. `ReferenceConflicts` is an instance of that interface, not a model of vulkano's code.
- ZeroLengthAccepted holds for the reference conflict query only. The Rust check hands the zero-length ranges to `conflicts_buffer` and accepts or rejects them on its answer alone. A conflict query that reports two empty ranges as conflicting therefore makes the check report `OverlappingRanges`, and the model keeps that behaviour.
- CheckCopyBuffer models a debug build: its precondition excludes the one input on which the debug assertion fails (both usages present, no conflict from source to destination, a conflict from destination to source). A release build skips the assertion and returns `Ok(())` for that input; the model gives no result there.
- Panics are modelled as preconditions. A device mismatch, or a query that fails the debug assertion, has no result in the model.
- Rust generics (`S`, `D`, `?Sized`) and the `std::error::Error` trait machinery are left out. The source and destination are both `BufferAccess` values.
- `fmt::Formatter` and `write!` are left out. Only the string that `Display` writes is modelled.
- Recording or submitting the copy command, memory aliasing beyond the conflict query, and synchronisation are left out. None of them is part of this check.
- `usize` sizes are modelled as unbounded `nat`. Taking the minimum of two sizes cannot overflow, so nothing is lost.
