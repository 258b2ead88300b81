# A verified model of the TurboWasm component layer

This project models the part of TurboWasm that moves things between WebAssembly components: stream and future
endpoints, resource handles, the Canonical ABI, the type graphs of components, the queue of asynchronous calls, the
admission of host arguments, the construction of host results, and the artifact format with the type context behind
it. The model is written in Dafny 4.11; `dafny verify dfyconfig.toml` checks all of it.

Most parts come in two layers. The value layer describes states and steps as functions on immutable records and
carries the invariants and the theorems. The machine layer (`EndpointMachine`, `ResourceMachine`, `CanonicalMachine`,
`TypeMachine`, `ArtifactWriter`, `ArtifactReader`, `AsyncQueue`, `Admission`, `HostResultMachine`, `PairDomain`,
`TypeGraph`) has the form of the C code, with objects whose fields are reassigned and loops with early exits; each
method is proved to do what the value layer prescribes. A run is any finite series of steps whose arguments exist when
it is their turn; callbacks into hosts and guests answer arbitrarily through parameters (`Faults`, `lucky`,
`guestCheck`, `admitted`, `outcomes`), and guest memory may change between any two steps.

How the parts are laid out:

- Endpoints: `AsyncState` (notification states), `EndpointModel` (state and operations), `EndpointInvariant`,
  `EndpointFlow`, `EndpointOwnership`, `EndpointTransactions`, `EndpointHomes` (the parts of the invariant),
  `EndpointSteps`, `EndpointMoves`, `EndpointRuns` (the operations keep it), `EndpointProgress`, `EndpointTheorems`,
  `EndpointPromises`, `EndpointConservation`, `EndpointRendezvous`, `EndpointEvents` (the results),
  `EndpointMachine`; `PairDomain` is the list of pairs of a task domain.
- Canonical ABI: `CanonicalLayout`, `CanonicalFlatten`, `CanonicalSignature`, `CanonicalMemory`,
  `CanonicalRoundTrip`, `CanonicalValues`, `CanonicalFlatValues`, `CanonicalTotal`, `CanonicalMachine`, with `Bytes`
  and `Utf8`; `CanonicalLeast`, `CanonicalImage` and `CanonicalCarriers` describe layouts, memory and carriers without
  computing them.
- Resources: `ResourceCodec`, `ResourceRuns`, `ResourceJourneys`, `ResourceMachine`.
- Components: `TypeGraph`, `TypeDeclarations`, `AsyncQueue`, `Admission`, `HostResult`, `HostResultMachine`.
- Artifacts: `ArtifactWords`, `ArtifactRecords`, `ArtifactLists`, `ArtifactCore`, `ArtifactState`, `ArtifactBinding`,
  `ArtifactFile`, `ArtifactTheorems`, `ArtifactBytes` (where every field is), `ArtifactWriter`, `ArtifactReader`.
- The type context that restoring finalizes: `DefinedTypes`, `TypeOrder`, `TypeMeaning`, `TypeShapes`, `TypeDepths`,
  `TypeMachine`.

What the model shows about the code, beyond what its comments say:

- `forward` notifies the creation pairs of both ends that it closes. That is safe only because two open ends of a
  creation pair are still each other's peers, so a pair is never notified after it released its instance
  (`EndpointPromises.ReleasedExactly`).
- A failed lower or a failed open restores every owner, value and table entry, but not the table's next handle: the
  handles that were handed out are not reused (`EndpointTransactions.RollbackRestores`).
- A copy that fails after lifting from guest memory has consumed the guest's batch: the progress of the writing buffer
  then exceeds what was moved. Progress and moved elements agree exactly while the end has not failed.
- An artifact whose carriers disagree with the types that they name is restored, but with the carriers rebound; it
  comes back unchanged if and only if they agree (`ArtifactTheorems.RestoreExact`).

## Model

| member | source | states |
|---|---|---|
| EndpointTheorems.EveryRun | src/component_endpoint.c:39-681 | From the initial state, after any run of opens, submits, takes, cancels, closes, forwards, moves, lifts, lowers, commits and rollbacks, with arbitrary callback answers: the whole invariant holds (links are mutual, leased buffers belong to one operation, phases fit buffers), every end has exactly one owner, and every future has delivered at most one element. |
| EndpointTheorems.RunAdvances | src/component_endpoint.c:128-538 | Over any run: failures, closed flags, types and directions are never taken back, delivered elements and the history of transfers only grow, and a failed end that returned its buffer never has one again. |
| EndpointTheorems.FutureCarriesOne | src/component_endpoint.c:128-224 | A future moves at most one element in all, delivered and pending together. |
| EndpointTheorems.ElementsConserved | src/component_endpoint.c:112-224 | In every reachable state, what an end has delivered and its pending operation has moved is exactly the concatenation of the batches of its own transfers, in order; a pending host buffer holds exactly the elements moved into it, or exactly those of the lent ones not yet moved out. |
| EndpointTheorems.PairConserved | src/component_endpoint.c:128-224 | In every run without forwards, what a writing end gave away equals, element by element, what the reading end of its pair got. |
| EndpointConservation.TransferMovesCells | src/component_buffer.c:55-160 | A committed transfer logs exactly the cells that the writer's buffer held at that moment, in guest or host memory, and leaves exactly these in the reader's buffer. |
| EndpointConservation.TransferMatched | src/component_endpoint.c:112-126 | Every transfer stands at its own place among the writer's elements and among the reader's elements, with the same batch at both places. |
| EndpointConservation.TotalsAgree | src/component_endpoint.c:112-126 | All writing ends together have moved as many elements as all reading ends together: the sum of all batches. |
| EndpointConservation.RunConserves | src/component_endpoint.c:128-538 | In every run, forwards included: each transfer went between a writer and a reader that were linked in some state of the run, stands at its place on both sides, and the totals of both sides agree. |
| EndpointPromises.EventReportsProgress | src/component_endpoint.c:201-224 | A successful take reports exactly as many elements as its operation moved, appends exactly those to what the end has delivered, and gives the buffer back unleased. |
| EndpointPromises.FailedPair | src/component_endpoint.c:112-126 | Both ends of a failed pair carry the same failure, offer nothing, and belong to no value. |
| EndpointPromises.FailureDelivered | src/component_endpoint.c:201-224 | A failed end with an operation reports its failure at the next take, which returns the buffer. |
| EndpointPromises.FailureContained | src/component_endpoint.c:128-199 | A failed end refuses submits with its failure and traps attach, detach, into-value and forward; it closes exactly if it is open, without operation and without waiter. |
| EndpointPromises.FailureIsFinal | src/component_endpoint.c:112-126 | Over any run a failure stays the same, a returned buffer is never replaced, and what was delivered stays delivered. |
| EndpointPromises.SubmitExactly | src/component_endpoint.c:128-199 | A submit passes its checks if and only if the end is live, unfailed and idle, the buffer is valid and free, and no buffer rule is broken: the internal consistency traps are unreachable. |
| EndpointPromises.PlanNeverFails | src/component_endpoint.c:155-185 | In every reachable state the two speculative state transitions of a rendezvous are possible whenever the submit was allowed. |
| EndpointPromises.ForwardExactly | src/component_endpoint.c:462-538 | Forwarding two forwardable ends of one type succeeds if there is nothing to join; otherwise a splice plan exists, it traps without effect exactly on the two buffer rules, and else it is the splice, which succeeds if nothing has to be copied. |
| EndpointPromises.ForwardJoins | src/component_endpoint.c:462-538 | After a splice both forwarded ends are closed and unlinked, their former peers are each other's peers, and pending operations stay where they were. |
| EndpointPromises.ReleasedExactly | src/component_endpoint_builtin.c:15-24 | In every reachable state a tracked pair has released its creation instance if and only if both its ends are closed, exactly once, and was never notified afterwards. |
| EndpointRendezvous.SubmitFills | src/component_endpoint.c:165-198 | In every reachable state, a submit against a waiting peer with room on both sides that does not fail moves the same number of elements through both buffers until one of them is used up; both operations have their events, with their progress, and the peer stays open exactly if it has room left. |
| EndpointRendezvous.SubmitOnEmpty | src/component_endpoint.c:174-198 | If one side has nothing to move, no cell changes and exactly one of the two operations completes, with no elements: a submit with room completes the empty peer and waits; an empty submit completes before a peer with room, which is undisturbed; of two empty ones the writer completes and the reader waits. |
| EndpointRendezvous.SubmitAlone | src/component_endpoint.c:159-164 | Without a waiting peer the submission waits and the peer is untouched; if the peer is gone, it completes at once with no elements. |
| EndpointRendezvous.ForwardMeets | src/component_endpoint.c:481-538 | A successful forward lets the two waiting operations that it joins meet in the same way: the same number of elements through both until one is used up, or, if one is empty, its event first, the writer before the reader, while the other waits on undisturbed. |
| EndpointEvents.EventCode | src/component_async_state.c:110-138 | Every delivered event carries 1 if and only if the end has no peer and is not a future that has its element, 2 if and only if it is linked and its operation was being cancelled, and 0 otherwise, with the number of moved elements above the low four bits; after a drop or a resolved future the end is done, otherwise idle. |
| EndpointEvents.CancelThenTake | src/component_endpoint.c:201-232 | Cancelling an operation and taking its event: on a linked stream the payload is 2 plus 16 times what it had moved, so 2 if nothing moved; a gone peer or a resolved future takes precedence. |
| EndpointEvents.PeerClosedThenTake | src/component_endpoint.c:201-455 | Closing the peer and taking the event that this causes: the payload is 1 plus 16 times what the operation had moved, or 0 for a future that has its element. |
| EndpointEvents.TakeExactly | src/component_endpoint.c:201-224 | A take delivers if and only if the end is held, nobody waits synchronously, and there is an event; otherwise nothing changes and the status tells why. The inconsistency trap never fires. |
| EndpointSteps.CloseExactly | src/component_endpoint.c:415-443 | A close is accepted if and only if the end is held, has no operation and no waiter; its peer then points back and can be told. |
| EndpointSteps.SubmitKeeps | src/component_endpoint.c:128-199 | A submit, with any answers of the copy's callbacks, keeps the whole invariant. |
| EndpointSteps.TakeKeeps | src/component_endpoint.c:201-224 | A take keeps the whole invariant, also if releasing the buffer reports an error. |
| EndpointSteps.CancelKeepsAll | src/component_endpoint.c:226-232 | A cancel keeps the whole invariant. |
| EndpointSteps.CloseKeepsAll | src/component_endpoint.c:415-443 | A close keeps the whole invariant. |
| EndpointSteps.ForwardKeepsAll | src/component_endpoint.c:462-538 | A forward, with any answers of the copy's callbacks, keeps the whole invariant. |
| EndpointTransactions.PreflightExactly | src/component_endpoint.c:603-619 | In every reachable state a rollback's preflight succeeds, and a commit's succeeds if and only if every adopted value in the scope was admitted. |
| EndpointTransactions.CommitPublishes | src/component_endpoint.c:621-673 | A commit turns every reservation of the scope into a table entry for its end, frees the values, empties the scope, and changes no other owner or entry. |
| EndpointTransactions.RollbackRestores | src/component_endpoint.c:580-673 | Rolling back any series of lowers restores every owner, every value and every table entry; only the next handle has advanced, by one per lower. |
| EndpointTransactions.LoweredChain | src/component_endpoint.c:580-601 | After a series of lowers the scope lists the ends newest first, and no value has changed hands. |
| EndpointMachine.Memory.BufferCopy | src/component_buffer.c:138-160 | The bracketed copy of one batch, cell by cell and with every fault position, has exactly the effect and the status of the specified copy. |
| EndpointMachine.Memory.TransferBuffers | src/component_endpoint.c:112-126 | The transfer between two operations has the specified effect; a failed copy poisons both ends. |
| EndpointMachine.Memory.Submit | src/component_endpoint.c:128-199 | The submit as it runs takes the specified step and returns its status. |
| EndpointMachine.Memory.Take | src/component_endpoint.c:201-224 | The take as it runs takes the specified step, with status and payload. |
| EndpointMachine.Memory.Cancel | src/component_endpoint.c:226-232 | The cancel as it runs takes the specified step. |
| EndpointMachine.Memory.Close | src/component_endpoint.c:415-443 | The close as it runs takes the specified step, with the notification of the pair. |
| EndpointMachine.Memory.Forward | src/component_endpoint.c:462-538 | The forward as it runs takes the specified step on all four ends, both buffers and both registrations. |
| EndpointMachine.Memory.OpenPair | src/component_endpoint.c:39-70 | Opening a pair registers both ends, or undoes everything if one cannot be registered. |
| EndpointMachine.Memory.Attach | src/component_endpoint.c:295-301 | Attaching a readable end to a table takes the specified step. |
| EndpointMachine.Memory.Detach | src/component_endpoint.c:288-293 | Detaching a readable end takes the specified step. |
| EndpointMachine.Memory.IntoValue | src/component_endpoint.c:346-357 | Moving an end into a value takes the specified step. |
| EndpointMachine.Memory.TakeValue | src/component_endpoint.c:393-413 | Taking the end out of a value takes the specified step. |
| EndpointMachine.Memory.ReleaseValue | src/component_endpoint.c:303-328 | Releasing a value closes the end that it holds, unless its host transaction is still open. |
| EndpointMachine.Memory.LiftValue | src/component_endpoint.c:540-578 | Lifting a handle moves its end into a value, or changes nothing. |
| EndpointMachine.Memory.LowerValue | src/component_endpoint.c:580-601 | Lowering a value reserves a handle for its end, or changes nothing. |
| EndpointMachine.Memory.FinishCodec | src/component_endpoint.c:621-673 | Commit and rollback as they run settle the whole scope as specified. |
| PairDomain.Domain.CloseEnd | src/component_endpoint_builtin.c:15-24 | Closing an end releases the instance exactly if it was the second end of a retained pair; the reference count stays the number of retained pairs. |
| PairDomain.Domain.Collect | src/component_endpoint_builtin.c:52-60 | Collecting removes exactly the pairs whose both ends are closed, keeps the order of the others, and keeps counter and list in step. |
| PairDomain.Domain.PairOpen | src/component_endpoint_builtin.c:62-102 | Opening succeeds if and only if there is room after collecting, the instance can be retained if tracked, and the ends open; a failure leaves list and references as after collecting. |
| CanonicalLayout.LayoutExact | src/component_canonical.c:222-442 | Layout succeeds if and only if the type is well formed, within the recursion bound, and its size fits 64 bits; then alignment and size are those of the unbounded definition. |
| CanonicalLayout.FieldPlacement | src/component_canonical.c:222-442 | Every field is aligned, starts behind the fields before it, and ends inside its record. |
| CanonicalLayout.FieldsDisjoint | src/component_canonical.c:222-442 | Two fields of a record never overlap. |
| CanonicalLayout.PayloadPlacement | src/component_canonical.c:222-442 | Every payload is aligned, lies behind the discriminant and inside its variant. |
| CanonicalLayout.SizeFacts | src/component_canonical.c:222-442 | Sizes of well-formed types are positive multiples of their alignment. |
| CanonicalLayout.WalkLands | src/component_canonical.c:1719-1840 | Walking absolute addresses from an aligned base, as reading and writing do, visits exactly the offsets that layout computes. |
| CanonicalLayout.PayloadLands | src/component_canonical.c:1842-2028 | Aligning behind an absolute discriminant lands on the payload offset that layout computes. |
| CanonicalLeast.ScalarLeast | src/component_canonical.c:246-272 | The size of a number is the least of 1, 2, 4 and 8 bytes that holds every number of its kind; the ranges are given in numbers. |
| CanonicalLeast.LabelLeast | src/component_canonical.c:138-146 | A discriminant takes the least of 1, 2 and 4 bytes w with count <= 256^w. |
| CanonicalLeast.FlagsLeast | src/component_canonical.c:148-156 | Flags take the least of 1, 2 and 4 bytes with a bit for each flag. |
| CanonicalLeast.RecordPlanned | src/component_canonical.c:288-329 | The computed offsets, size and alignment keep every field aligned, in order, apart and inside, also in arrays. |
| CanonicalLeast.RecordLeast | src/component_canonical.c:288-329 | No other placement with aligned fields in order is smaller, starts any field earlier, or gets by with a weaker alignment. |
| CanonicalLeast.VariantPlanned | src/component_canonical.c:331-388 | The computed discriminant, payload offset, size and alignment leave room for every payload, aligned. |
| CanonicalLeast.VariantLeast | src/component_canonical.c:331-388 | No other plan for a variant is smaller, starts the payload earlier, or has a narrower discriminant or a weaker alignment. |
| CanonicalFlatten.FlattenExact | src/component_canonical.c:528-715 | Flattening succeeds if and only if the type is well formed and within the recursion bound, and yields the first 17 carriers of the unbounded flattening. |
| CanonicalFlatten.JoinHolds | src/component_canonical.c:515-526 | The joined carriers of a variant can hold the carriers of every case at every position. |
| CanonicalFlatten.JoinLeast | src/component_canonical.c:515-526 | The join of two carriers is their least upper bound, and symmetric. |
| CanonicalSignature.CappedDecides | src/component_canonical.c:726-785 | The capped count of carriers exceeds a limit below 17 if and only if the true count does, and equals it otherwise. |
| CanonicalSignature.ParametersExact | src/component_canonical.c:744-785 | Parameter flattening gives the flat list, or one pointer exactly if there are more carriers than the limit. |
| CanonicalSignature.SignatureExact | src/component_canonical.c:787-847 | For every function, pointer width, context and ABI the signature is the specified one, its arrays never overflow, and it fails exactly on types that are too deep or ill formed. |
| CanonicalSignature.SignatureLimits | src/component_canonical.c:787-847 | The limits in numbers: parameters go through memory above 4 carriers for asynchronous imports and above 16 otherwise; results above 1 carrier of a synchronous call, and always for asynchronous imports; where the address goes and which calls return a 32-bit status. |
| CanonicalRoundTrip.ValueStored | src/component_canonical.c:1719-2159 | Lowering changes only its place and freshly allocated memory, and any memory that keeps what was written lifts to the same value. |
| CanonicalValues.LowerLift | src/component_canonical.c:3174-3253 | If lowering into memory succeeds, lifting from the same address gives the same value, and no byte outside the place and fresh allocations changed. |
| CanonicalValues.ParameterLayoutExact | src/component_canonical.c:455-498 | The layout of a parameter list is that of a tuple of the parameters, and fails exactly where that has no layout. |
| CanonicalValues.ParametersRoundTrip | src/component_canonical.c:3255-3315 | Parameters that travel through memory arrive as they were sent. |
| CanonicalImage.LiftReads | src/component_canonical.c:3174-3218 | Lifting from memory gives a value if and only if the address is aligned and inside the memory and the bytes there are the image of that value: least significant byte first, two's complement, pointer before length, fields and payloads at their offsets, elements one after the other. |
| CanonicalImage.LowerWrites | src/component_canonical.c:3220-3253 | Lowering into memory leaves exactly that image of the value. |
| CanonicalImage.ParametersRead | src/component_canonical.c:3255-3315 | Parameters are lifted if and only if each of them lies at its offset in the tuple they form. |
| CanonicalFlatValues.CoerceBack | src/component_canonical.c:2391-2491 | Coercing a carrier into one that can hold it and back gives the same bits. |
| CanonicalFlatValues.CoerceAllBack | src/component_canonical.c:2748-2957 | The same for all carriers of a variant case, padding included. |
| CanonicalFlatValues.ValueCarried | src/component_canonical.c:2493-3172 | Flat lowering yields exactly the carriers of the flattened type, and flat lifting gives the value back, joined and coerced carriers included. |
| CanonicalCarriers.ScalarKept | src/component_canonical.c:2205-2269 | The carrier of a signed number, read as a two's complement number of 32 or 64 bits, is the number; the carrier of any other has its bits. |
| CanonicalCarriers.ScalarLifts | src/component_canonical.c:2271-2389 | Lifting a carrier gives a number if and only if the carrier is of the right kind and agrees with it in the low bits of the kind. |
| CanonicalCarriers.CoerceKeeps | src/component_canonical.c:2391-2440 | Coercion to joined carriers keeps the bits, leaves the upper bits of wider carriers zero, and pads with zeros. |
| CanonicalCarriers.JoinNarrowest | src/component_canonical.c:515-526 | Different carrier kinds are joined to the narrowest integer that has the bits of both. |
| CanonicalCarriers.LowerExact | src/component_canonical.c:2959-3035 | Flat lowering of any value: signed numbers sign-extended, all others with their bits, fields in order, joined carriers with the payload's bits and zeros elsewhere. |
| CanonicalCarriers.FlatReads | src/component_canonical.c:3037-3098 | Flat lifting gives a value if and only if the carriers, and the memory that they point to, stand for it. |
| CanonicalTotal.FlatTotal | src/component_canonical.c:2959-3035 | A well-typed value without strings and lists always has a flat form. |
| CanonicalTotal.LowerTotal | src/component_canonical.c:2095-2159 | A well-typed value without strings and lists can always be stored at a fit place. |
| CanonicalMachine.ComputeLayout | src/component_canonical.c:222-442 | The layout loop computes the specified layout or fails with the specified status. |
| CanonicalMachine.ComputeFlat | src/component_canonical.c:528-715 | The flattening loop computes the specified carriers or fails with the specified status. |
| CanonicalMachine.WriteLe | src/component_canonical.c:887-891 | Writes the little-endian bytes of the value and leaves the others alone. |
| CanonicalMachine.ReadLe | src/component_canonical.c:879-885 | Reads the number that the little-endian bytes stand for. |
| CanonicalMachine.Guest.LowerInto | src/component_canonical.c:2095-2159 | Lowering as it runs on guest memory has the specified effect and status. |
| CanonicalMachine.LiftFrom | src/component_canonical.c:2030-2093 | Lifting as it runs gives the specified value or status. |
| Bytes.LeRoundTrip | src/component_canonical.c:879-891 | Reading the little-endian bytes of a number that fits gives the number back. |
| Bytes.LeDigit | src/component_canonical.c:993-1009 | Byte i of the little-endian form of a number is its digit of weight 256^i. |
| Utf8.AcceptsExactly | src/component_binary.c:18-107 | The accepted byte strings are exactly the UTF-8 encodings of sequences of scalar values. |
| Utf8.Utf8Valid | src/component_binary.c:18-107 | The validation loop answers true if and only if the bytes encode some sequence of scalar values. |
| ResourceRuns.EveryResourceOnce | src/component_exec_async_resource.c:111-401 | After any run, every owned resource that ever existed is in exactly one place: one table handle, one value in flight, its host, or destroyed; it is destroyed at most once, and destroyed resources are nowhere else. |
| ResourceRuns.CountersExact | src/component_resource.c:238-468 | After any run, an owner counter is the number of live owner records, a loan counter the number of live borrows, and a task's borrow counter the number of borrowed handles that it holds. |
| ResourceRuns.PreflightExactly | src/component_exec_async_resource.c:351-368 | In every reachable state the consistency checks of preflight pass; it succeeds if and only if there are no borrows, or their task is there and has room for all of them. |
| ResourceRuns.ReadyTurn | src/component_exec_async_resource.c:370-386 | After a successful preflight no turn of the commit loop fails: each borrow finds its task and room in its counter. |
| ResourceRuns.CommitPublishes | src/component_exec_async_resource.c:370-386 | A commit publishes every reservation of the codec with its owner's representation, and no other table entry changes; nothing is destroyed. |
| ResourceRuns.RollbackRestores | src/component_exec_async_resource.c:388-401 | A rollback removes every reservation of the codec, and nothing else changes; no resource moves or is destroyed. |
| ResourceRuns.RunKeeps | src/component_exec_async_resource.c:111-401 | Every run keeps the whole invariant, forgets no resource, and never takes a destruction back. |
| ResourceJourneys.CountersFit | src/component_exec_async_resource.c:259-385 | Over any run loan and borrow counters stay within 32 bits, and tables and owner records within the limit of their instance. |
| ResourceJourneys.LiftExactly | src/component_exec_async_resource.c:259-305 | A lift succeeds if and only if the handle names a resource of the type asked for, there is room, and an owned one is owned and not lent, a borrowed one has room for a loan; otherwise nothing changes. |
| ResourceJourneys.LowerExactly | src/component_exec_async_resource.c:307-343 | A lower succeeds if and only if the value is of the type, unpublished and unreserved, admitted if it is the host's, and a borrow has a live task of this instance or goes to the defining instance; it reserves the next handle or changes nothing. |
| ResourceJourneys.ResourcePassed | src/component_exec_async_resource.c:259-385 | A resource that is lifted, lowered and committed arrives at the next handle of the other table with the type asked for and its own representation, owned exactly if it was not borrowed; an owned one has left its table, a borrowed one stays with one more loan. |
| ResourceJourneys.BorrowReturned | src/component_exec_async_resource.c:111-385 | Releasing a borrow that was passed on makes the handle it came from what it was before. |
| ResourceCodec.LiftKeeps | src/component_exec_async_resource.c:259-305 | Lifting, owned or borrowed, keeps the whole invariant. |
| ResourceCodec.LowerKeeps | src/component_exec_async_resource.c:307-343 | Lowering, borrows into the defining instance included, keeps the whole invariant. |
| ResourceCodec.ReleaseReady | src/component_exec_async_resource.c:111-128 | A released borrow always finds its lender with a loan to give back, and the owner counter is never empty while a record is alive. |
| ResourceCodec.ReleaseKeeps | src/component_exec_async_resource.c:111-128 | Releasing a value keeps the whole invariant. |
| ResourceCodec.DropBorrows | src/component_resource.c:354-468 | Dropping a handle that is not lent succeeds, and a borrowed one is taken off its task's counter, which is never empty then. |
| ResourceCodec.ClearKeeps | src/component_resource.c:381-397 | Clearing a task's scope succeeds if and only if none of its borrowed handles is lent on; then it holds none, and the invariant is kept. |
| ResourceMachine.Domain.Lift | src/component_exec_async_resource.c:259-305 | The lift as it runs takes the specified step and keeps the invariant. |
| ResourceMachine.Domain.Lower | src/component_exec_async_resource.c:307-343 | The lower as it runs takes the specified step; it returns the reserved handle, or the representation for a borrow into the defining instance. |
| ResourceMachine.Domain.Preflight | src/component_exec_async_resource.c:351-368 | The preflight loop has the specified status. |
| ResourceMachine.Domain.Commit | src/component_exec_async_resource.c:370-386 | Commit as it runs publishes all reservations or changes nothing, and keeps the invariant. |
| ResourceMachine.Domain.Rollback | src/component_exec_async_resource.c:388-401 | Rollback as it runs gives all reservations up, and keeps the invariant. |
| ResourceMachine.Domain.Release | src/component_exec_async_resource.c:111-128 | Release traps exactly while the value is reserved; otherwise the record goes, and exactly an uncommitted owned resource that is not the host's is destroyed. |
| ResourceMachine.Domain.Drop | src/component_resource.c:437-468 | Drop as it runs takes the specified step and keeps the invariant. |
| ResourceMachine.Domain.Clear | src/component_resource.c:381-397 | The two loops of clearing a scope take the specified step; on success its counter is zero. |
| TypeGraph.FaithfulMeaning | src/component_binary.c:1926-2027 | If every mapped type has a renamed copy, a type and its copy unfold to the same tree to any depth; the graphs may be cyclic. |
| TypeGraph.CloneGraph | src/component_binary.c:1926-2027 | On success the cloned type means what the source type means, to any depth; no other type changed; everything that came with it lies in the new part of the graph and refers only to copies. |
| TypeGraph.CompactionKeeps | src/component_binary.c:2028-2062 | Closing the unused slots keeps the meaning of every serialized and every auxiliary type. |
| TypeGraph.Compact | src/component_binary.c:2028-2062 | The in-place move and renumbering yields exactly the graph without the unused slots. |
| TypeDeclarations.DecodeTypes | src/component_binary.c:2885-3011 | After any series of declarations, repeated types, aliases and other entries, followed by compaction, the k-th serialized type means what the k-th definition says, to any depth. |
| TypeDeclarations.Define | src/component_binary.c:2064-2206 | One definition keeps the meaning of all earlier types and refers to no unused slot; a declaration is accepted exactly if its references go backwards, a repeated type exactly if its source is an earlier defined type that is not an instance. |
| TypeDeclarations.CloneGap | src/component_binary.c:1926-2027 | A cross-graph clone into the next slot leaves no reference to an unused slot. |
| AsyncQueue.TurnComes | src/component_exec_async.c:295-323 | A queued call at position k is at the head after at most k turns, whatever is lowered or collected meanwhile, unless it is collected itself. |
| AsyncQueue.PollReaches | src/component_exec_async.c:295-323 | One poll of more than k quanta runs the call at position k, unless it is collected first or an earlier turn fails. |
| AsyncQueue.Exec.Append | src/component_exec_async.c:175-180 | Appending to the linked list puts the call at the end. |
| AsyncQueue.Exec.Pop | src/component_exec_async.c:182-189 | Popping takes the first call, or none. |
| AsyncQueue.Exec.Collect | src/component_exec_async.c:202-217 | Collecting unlinks exactly the retired calls, keeps the order of the others, and frees each once. |
| AsyncQueue.Exec.Lower | src/component_exec_async.c:226-293 | Lowering collects, queues the new call last, and collects again. |
| AsyncQueue.Exec.Poll | src/component_exec_async.c:295-323 | A poll makes exactly as many turns as the quanta and the queue allow, stops at the first failed turn with its status, and otherwise reports whether calls are left. |
| Admission.Registry.Reserve | src/component_api.c:327-360 | Reservation succeeds if and only if every leaf is admissible beside the ones before it; otherwise exactly a prefix is reserved. |
| Admission.Registry.Admit | src/component_api.c:345-378 | An admission reserves every leaf, or leaves every loan count and busy flag as it was; it succeeds exactly if all leaves are admissible. |
| Admission.Registry.Start | src/component_api.c:380-392 | Starting a call hands over exactly the owned leaves, and the borrowed ones stay reserved. |
| Admission.Registry.Destroy | src/component_api.c:399-418 | The end of an admission gives every leaf that it still holds back exactly once. |
| Admission.AdmissibleExclusive | src/component_api.c:327-343 | Admissible leaves own what they own exclusively: no loan and no second owner among them. |
| HostResult.CostIsCharged | src/component_api.c:1323-1376 | The measured size of a result is exactly the sum of what its staged parts are charged with. |
| HostResultMachine.AddSize | src/component_api.c:682-690 | The overflow-free addition succeeds if and only if the true sum is within the limit. |
| HostResultMachine.Measure | src/component_api.c:1323-1376 | Measuring succeeds if and only if the source is well formed, not too deep, within the budget, and its resources fit the registry. |
| HostResultMachine.Host.Stage | src/component_api.c:1125-1307 | Staging builds the tree of the source, with its blocks, references and pending resources counted, or leaves nothing behind. |
| HostResultMachine.Host.Discard | src/component_api.c:1065-1087 | Discarding gives back exactly the blocks and references of the staged tree. |
| HostResultMachine.Host.Commit | src/component_api.c:1379-1416 | Committing charges every part but the endpoints and registers every owned resource. |
| HostResultMachine.Host.Prepare | src/component_api.c:1418-1485 | Preparing a host result is all or nothing: on failure nothing has changed; on success every part is charged, the owner record keeps exactly its own size, and the source is consumed. |
| HostResultMachine.Host.Release | src/component_api.c:968-975 | Releasing a part gives back its bytes and its reference. |
| HostResultMachine.Host.ReleaseAll | src/component_api.c:968-975 | Releasing all parts in any order brings budget and reference count back to where they were. |
| ArtifactWords.WordsRoundTrip | src/artifact.c:52-125 | Reading a record of words that was written gives the words back and leaves the rest. |
| ArtifactWords.AppendsRoundTrip | src/artifact.c:1656-1770 | A written list that is appended to the context is rebuilt, refused or exhausts the context, as its first record that cannot be kept decides. |
| ArtifactCore.CoreRoundTrip | src/artifact.c:377-1654 | Written core metadata is restored, with its types finalized, exactly if its fate allows it, and passes validation exactly if its records do. |
| ArtifactCore.CoreReadersAgree | src/artifact.c:533-718 | On any bytes that both readers accept, they count the same records and stop at the same byte. |
| ArtifactState.StateRoundTrip | src/artifact.c:720-1860 | Written state metadata is restored unchanged exactly if its fate allows it, and passes validation exactly if its records do. |
| ArtifactState.StateReadersAgree | src/artifact.c:844-968 | The same agreement for state metadata. |
| ArtifactFile.MeasuredSize | src/artifact.c:970-992 | The measured size is the size of the artifact that is written. |
| ArtifactBytes.ArtifactAt | src/artifact.c:1032-1065 | Every field of a written artifact by byte offset: the 72 bytes of the header, the summary at 80, the core metadata at 176 and the state metadata behind it, record by record and field by field, and the digest of all that at the end. |
| ArtifactTheorems.InspectWritten | src/artifact.c:994-1248 | A written artifact passes inspection against its source if and only if its metadata is sound, and is then reported as written. |
| ArtifactTheorems.RestoreWritten | src/artifact.c:994-1934 | Restoring a written artifact gives the summary and the metadata with types finalized and value types bound, or the status of the first thing that stands in the way: malformed, or out of memory. |
| ArtifactTheorems.BuildableMeans | src/artifact.c:1364-1878 | Nothing stands in the way if and only if every record can be rebuilt and appended, the types can be finalized, and every value type can be bound. |
| ArtifactTheorems.RestoreExact | src/artifact.c:994-1934 | What was written comes back unchanged if and only if it is sound and buildable, every carrier agrees with the type that it names, and a store is required if there are composite types. |
| ArtifactTheorems.AcceptedIsSealed | src/artifact.c:1066-1248 | Whatever bytes inspection accepts carry the digest of this very source, and if they claim a seal, the digest of everything in front of it. |
| ArtifactTheorems.ReadersAgree | src/artifact.c:1066-1934 | On any artifact that is restored, the restored summary and counts are those that inspection found. |
| ArtifactBinding.SettledMeans | src/artifact.c:1862-1878 | Finalizing and binding leave a context as it is if and only if every carrier agrees with the type that it names and the store flag is right. |
| ArtifactWriter.Measure | src/artifact.c:970-992 | Measuring succeeds if and only if all spans lie in the source and the size fits; then it is the size of the artifact. |
| ArtifactWriter.Write | src/artifact.c:994-1064 | Writing fills the buffer with exactly the artifact, if and only if there is a buffer and everything fits; its internal consistency failure never happens. |
| ArtifactReader.InspectArtifact | src/artifact.c:1066-1248 | Inspection as it runs over any bytes gives the specified verdict. |
| ArtifactReader.FindSection | src/artifact.c:1328-1362 | The section search finds the first section of its kind. |
| ArtifactReader.RestoreArtifact | src/artifact.c:1880-1934 | Restoration as it runs over any bytes gives the specified context or status, finalization and binding included. |
| ArtifactReader.BindContext | src/artifact.c:1862-1878 | Binding the value types of locals, globals, tables and segments succeeds exactly if each names an existing type through a reference, and sets exactly their carriers. |
| DefinedTypes.BoundUnchanged | src/validate_composite.c:228-290 | Finalizing leaves the types as they are if and only if their carriers are right. |
| DefinedTypes.FinalizeTwice | src/validate_composite.c:267-327 | What was finalized once is finalized again without change. |
| TypeOrder.GroupsLayered | src/validate_composite.c:291-327 | The group loop accepts only complete groups in which every reference stays inside the group or goes to a strictly shallower one, no deeper than the limit. |
| TypeOrder.LimitSuffices | src/validate_composite.c:7-80 | On finalized types the comparison of two types never nests deeper than the limit: allowing more depth changes no result. |
| TypeOrder.SameEquivalence | src/validate_composite.c:13-72 | Equality of defined types is reflexive, symmetric and transitive. |
| TypeOrder.MatchesPreorder | src/validate_composite.c:74-80 | On finalized types, matching of defined types is reflexive and transitive. |
| TypeMeaning.ValuePreorder | src/validation_context.c:59-110 | On the bound value types of a finalized context, matching is reflexive and transitive. |
| TypeMeaning.MutualEqual | src/validation_context.c:35-110 | Two bound value types match each other in both directions if and only if they are equal. |
| TypeMeaning.MatchesMeans | src/validation_context.c:59-110 | A value type matches another of the same carrier if and only if every value of the one, null included, is a value of the other. |
| TypeMeaning.SubtypeExact | src/validate_composite.c:240-267 | A declared subtype is accepted if and only if its supertype is not final and it takes at least what the supertype takes, gives at most what that gives, and has its fields, mutable ones with the same type. |
| TypeMeaning.Substitution | src/validate_composite.c:240-267 | On finalized types, whatever matches a parameter of the supertype matches that of the subtype, results and fields of the subtype serve wherever those of the supertype do, and mutable fields match both ways; for every supertype up the chain. |
| TypeMeaning.UseSafe | src/validate_composite.c:240-267 | The same in values: arguments for the supertype are arguments for the subtype, results and field contents of the subtype are ones of the supertype, and what may be assigned through the supertype may be assigned. |
| TypeShapes.SameShapes | src/validate_composite.c:13-72 | Two types are equal if and only if their shapes are: the place in the group and the whole group, with references to other groups unfolded to any depth. |
| TypeDepths.DepthsArranged | src/validate_composite.c:290-325 | The depths of accepted types put every group on one level above all groups that it refers to, on at most 256 levels. |
| TypeDepths.DepthsLeast | src/validate_composite.c:290-325 | No arrangement has a group on a lower level than its depth, and types refused as too deep have no arrangement on 256 levels. |
| TypeMachine.TypeEqual | src/validate_composite.c:39-72 | The recursive comparison of groups terminates, because it descends through ever shallower layers, and decides equality. |
| TypeMachine.TypeMatches | src/validate_composite.c:74-80 | The walk up the supertypes decides matching. |
| TypeMachine.ValueTypeEqual | src/validation_context.c:35-57 | Decides equality of bound value types. |
| TypeMachine.ValueTypeMatches | src/validation_context.c:59-110 | Decides matching of bound value types. |
| TypeMachine.IsSubtype | src/validate_composite.c:240-265 | Decides whether a type may extend its supertype: contravariant parameters, covariant results and immutable fields, equal mutable fields. |
| TypeMachine.CheckGroups | src/validate_composite.c:291-327 | The group loop gives the specified depths, or refuses as malformed or too deep. |
| TypeMachine.FinalizeTypes | src/validate_composite.c:267-327 | Finalization in place rebinds every carrier, marks the store as required exactly if there are composite types or it was before, and fails with the specified status. |

## Left out

- The subtask state machine (src/component_async_state.c:5-57) and the state machine of tasks (src/component_task.c): tasks
  appear only as the owners of borrow counters; how a task runs is the list of events of a turn.
- Re-entrant callbacks: `delivering` and callbacks that call back into the same endpoint are not steps of their own;
  a callback only answers with a status.
- Buffers that overlap partly: two buffers either share their cells or are apart.
- EndpointMachine.Memory.Submit: requires that the host does not lend the same cells to two operations, which
  src/component_endpoint.c:100-109 checks only within a pair.
- Waitable sets: only a waitable's own registration and waiting are modelled (src/component_waitable.c), a set is the
  handle that it joined.
- Slots and generations of handle tables: a handle is a number that is never reused, so the exhaustion of generations
  and of the 16-bit slot space is not modelled; a table is full when it has `max` entries.
- The notification hooks of the endpoint and resource codecs (`host_published` and its kin), and
  `resource_value_disown` with the host transfer of a resource.
- In `lower_resource`, the check that a representation passed into the defining instance is a 32-bit one: all
  representations are numbers.
- The decoders of component and module binaries, except for what the type, alias and export sections declare
  (`TypeDeclarations`); nested instance types are graphs that are already decoded.
- TypeGraph.CloneGraph: states nothing about when cloning fails; it may fail on depth, on undefined or instance types
  and on allocation.
- TypeDeclarations.DecodeTypes: states what an accepted series means, not when a series is refused beyond
  `TypeDeclarations.Define`; duplicate labels are not looked at.
- Guest allocation: the guest's `realloc` is assumed to return memory that was not in use; its failure is a status.
- Strings are byte sequences, floats are bit patterns, characters scalar values, and the allocation failures of
  lifting are not modelled; `CanonicalTotal.FlatTotal` and `CanonicalTotal.LowerTotal` therefore leave out strings
  and lists, whose lowering depends on the guest.
- Types of the Canonical ABI are finite trees; the recursion bound is kept.
- `charge_sync_result` (src/component_api.c:1043-1063): synchronous results are not charged through the modelled path.
- HostResultMachine.Measure: endpoints and resources that cannot be measured are one case, a broken source with its
  status.
- Admission entries that are published before the call starts.
- AsyncQueue.Exec.Poll: which calls can be retired is an arbitrary set, collecting does not fail, and a turn's outcome
  is given.
- SHA-256 is an arbitrary function with 32-byte digests.
- Failures of the allocator while restoring an artifact: out of memory is reported only where the code reports it for
  other reasons.
- Validation of function bodies, linking, execution and the WIT front end.
