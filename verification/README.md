# Verified model of DPeerNode

DPeerNode is a peer-to-peer toolkit. This project models the logic above its sockets and proves what that
logic is for. `dafny verify dfyconfig.toml` checks everything.

**Dialogs.** Two peers work off lines of host and server steps together. `ActionLines` has the line,
`CursorLists` and `ProcessorLists` the queue (as a value and as a linked heap structure), `Nodes` one peer as
a value with one specification function for each call, `PacketProcessors` the same peer as objects updated
in place, method by method equal to those functions. `Dialogs` puts two peers and two FIFO channels together,
with a history of every transaction on the side; `DialogPhases` treats one transaction, `DialogFrames`,
`DialogSteps` and `DialogTurns` show that every call keeps the invariant. `DialogTheorems`, `DialogLocal`,
`DialogProgress`, `DialogSafety`, `DialogContents`, `DialogIndexes` and `DialogLimits` hold the results over all
runs. `SendPath` and `PoolPath` follow the send queue and the processor pool of one peer.

**Bytes.** `Wire` has fixed-width numbers, `Contents` the n-item codec, `Walks` the walk that takes a content
apart with the ints of the code, `TransmitContents` the content object, `Mediators`, `TypedValues`,
`MediatorObjects` and `ArrayUnits` the typed values, `Layouts` where each of their fields lies, `Framing`
packets on a stream, `PacketWire` a dialog's packet as such bytes, `Payloads` what any bytes mean to the peer
they reach. `WireDialogs` runs the dialogs over byte streams and shows that every such run is a run
over packets.

**Handshake.** `ResumableLines` has the resumable line and its flattening, `Connections` the steps of both
sides, `Handshake` the two sides over FIFO channels, `ConnectionObjects` the connection objects with their
nested lines, `HandshakeCalls` whole calls of theirs as runs of steps.

**Smaller parts.** `ThreadSafeLists` (linked stack with node free-list), `Dispatch` (least-loaded dispatch of
slices), `References` (two-counter lifetime of shared data).

Conventions: callbacks are functions from the step to an answer and the content it leaves, so every theorem
holds for all of them; calls guarded by a mutex are atomic; a socket moves whole requests; SHA-256 is an
arbitrary function. A run of the dialogs takes SUCCESS and FAIL answers only and keeps both transaction
spaces below 2^30 - 1 entries.

Findings, stated as lemmas rather than smoothed over:

- A line of two or more server steps only whose early step fails sends its report to a processor that is
  already back in the pool (`DialogLimits.StrandedReport`); `DialogLimits.SafeExactly` says for exactly which
  lines that cannot happen. The run theorems leave out runs in which it does.
- A FAIL of the last step of a line is reported as SUCCESS; the model does the same.
- The check for a free transaction index never fires, because its sum is unsigned
  (`DialogIndexes.GuardNeverRefuses`). A full space makes the peers issue the same index
  (`DialogIndexes.IndexTaken`, `DialogIndexes.IndexIssuedTwice`); `DialogIndexes.FreshExactly` has the bound.
- The range check of `deparseBuffer` adds ints, so a length near 2^31 passes it and the item is loaded from
  beyond the buffer (`Walks.LargestLengthStrays`, and `Walks.TailStrays` at the end of a buffer).
  `Walks.StraysExactly` says for exactly which buffers; no peer that lays its contents out by
  `parseBuffers` sends one (`Walks.EncodedStaysInside`, `WireDialogs.EveryStreamDelivers`).

As in the source, only the processor that ends a line returns to its pool. The one the other
peer keeps bound for the dialog, and one that received a failure report, stay bound for good.

## Model

| member | source | states |
|---|---|---|
| DialogTheorems.TraceIsPrefix | DPN_TransmitProcessor.cpp:33-132 | In every reachable state of every run, with any number of transactions interleaved over recycled processors, the steps both peers together have run for a transaction are a prefix of its line: each once, by the side it names, each on the content the step before it left |
| DialogTheorems.AtRest | DPN_TransmitProcessor.cpp:37-78 | A transaction that waits in no queue and is on no channel, however busy the peers are with others, has run its whole line in exactly max(1, changes of side) packets with no fault handler called, or a step other than its last failed: then one report packet more than the changes before it was sent and each handler ran exactly once, except that a failed opening action sent nothing and ran only the host's; a type without a line sends nothing |
| DialogTheorems.FailureStops | DPN_TransmitProcessor.h:144-152 | From the state in which a step other than the last has failed, the trace of that transaction never grows again on either peer |
| DialogTheorems.FaultsOnce | DPN_TransmitProcessor.cpp:428-493 | Each side's fault handler has run at most once for a transaction, and one of them has run if and only if a step other than the last has failed |
| DialogTheorems.RunInv | DPN_TransmitProcessor.cpp:20-132 | The protocol invariant (queues, channels, pools, transaction spaces and dialog phases agree) holds in every state of every run |
| DialogTheorems.FreeRunIsRun | DPN_TransmitProcessor.cpp:37-78 | When every line begins with a host step or has at most one step, the runs the theorems speak of are all runs with SUCCESS and FAIL answers |
| DialogContents.DeliveredContent | DPN_TransmitProcessor.cpp:455-497 | After every delivery of every run, failure reports and packets that let no step run included, the processor it reached holds the content of its transaction; its failed flag and flags unit tell whether its fault handler has just run; it waits in the queue or is recycled with its line restarted, except after a report, which leaves its place and the trace as they were |
| DialogContents.SentProc | DPN_TransmitProcessor.cpp:46-75 | A processor that sends its answer is untouched; one that opens holds the content as its own steps left it, is marked when it failed, and waits for an answer exactly when it is not recycled |
| DialogLocal.DistributedIsLocal | DPN_TransmitProcessor.cpp:33-132 | If every call that acts on a transaction runs the same callbacks, functions of step and content, then once it is settled the steps two peers have run for it, over packets and recycled processors and among any other transactions, are exactly those of one local run of its line with these callbacks |
| DialogLocal.RunsAgree | DPN_TransmitProcessor.cpp:33-132 | Two runs between any peers with any other transactions: on the same line, first content and callbacks a settled transaction has the same steps, content, number of packets and fault handlers called |
| DialogLocal.ActsInRole | DPN_TransmitProcessor.cpp:296-313 | A call that acts on a transaction acts in the role the peer has in it, host for its owner and server for the other, and runs only steps of that role |
| DialogProgress.BoundedWork | DPN_TransmitProcessor.cpp:33-132 | In any run a transaction takes at most 2 * (changes of side + 1) calls of generate and process; once it is settled exactly two for each packet, or one when its opening action failed |
| DialogProgress.NeverStuck | DPN_TransmitProcessor.cpp:33-132 | In any reachable state that is not at rest some peer has a generate or process call that moves a transaction on, whatever the callbacks answer |
| DialogProgress.RestIsNear | DPN_TransmitProcessor.cpp:33-132 | However the calls are interleaved, n transactions over lines of at most L steps allow at most 2 * (L + 1) * n calls that do anything |
| DialogSafety.OneToken | DPN_TransmitProcessor.cpp:20-78 | In every reachable state the keys in both peers' queues, back queues and both channels are pairwise different: no processor is queued twice or acts while it waits to be sent |
| DialogSafety.PooledIsIdle | DPN_TransmitProcessor.cpp:379-391 | Every pooled processor has its cursor at the start, host position, resend flag and flags unit off, is in no queue and in no user's hands |
| DialogSafety.RecyclingIsSafe | DPN_TransmitProcessor.cpp:278-318 | Although iMap is never erased, any packet under way meets an unregistered key or a processor still bound to that key and type, in no pool and in no user's hands |
| DialogSafety.IndexesAgree | DPN_TransmitProcessor.cpp:14-19 | While both spaces have room the initiator's keys lie in [1, 2^30) and the other peer's in [2^30, 2^31), a key names the same dialog on both sides with host and server processors bound to it, and the next key of either peer is in neither map |
| DialogIndexes.FreshExactly | DPN_TransmitProcessor.cpp:284-289 | The next key of either peer is in neither map in every run that keeps both maps at most N entries, with any callbacks and any answers, if and only if N < 2^30 - 1 |
| DialogIndexes.IndexTaken | DPN_TransmitProcessor.cpp:278-295 | A run in which the initiator's next key is one the other peer has already issued: the initiator has 2^30 - 1 entries, the other peer one |
| DialogIndexes.IndexIssuedTwice | DPN_TransmitProcessor.cpp:278-295 | A run, one transaction longer, at whose end key 2^30 is in both maps, on each peer naming a host processor of its own that waits to be sent |
| DialogIndexes.GuardNeverRefuses | DPN_TransmitProcessor.cpp:284-292 | The check for a free index, a size_t sum compared with zero, refuses nothing: the processor is always entered under the next key, also when that key is negative, and it is negative exactly when the sum modulo 2^32 is at least 2^31 |
| DialogLimits.StrandedReport | DPN_TransmitProcessor.cpp:62-66 | A concrete run of a line of two or more server steps whose first step fails: its report is on the way to a processor that is back in the pool |
| DialogLimits.SafeExactly | DPN_TransmitProcessor.cpp:62-66 | Recycling is safe in all runs, for all answers of the callbacks, if and only if every line begins with a host step or has at most one step |
| DialogLimits.OrderExactly | DPN_TransmitProcessor.h:127-142 | The opening action runs a prefix of the line, for any answers, if and only if the line begins with a host step or has only server steps |
| SendPath.FirstInFirstOut | DPN_TransmitProcessor.cpp:37-77 | For any history of send, generate and process calls on one peer: the processors pushed by send and resend are, in order, those that have left followed by those still queued; the wire carries exactly their packets in that order, minus those whose opening action failed; the cursor is always at the front |
| PoolPath.OldestFirst | DPN_TransmitProcessor.h:391-423 | For any history of calls on one peer: the processors of a type that came back to the pool are, in order, those handed out again, to a caller or to an incoming transaction, followed by those still pooled; so the next one handed out is the first that came back and is not out again, a new one is made exactly when there is none, and every processor pooled for a type is of that type |
| ActionLines.RunIsSegment | DPN_TransmitProcessor.h:144-152 | For any answers, a call of go runs consecutive steps of its side in order, each on the content the previous one left, nothing after a failure, and leaves the cursor behind the last step run |
| ActionLines.ActionLine.GoLine | DPN_TransmitProcessor.h:127-153 | The loop over current and iStep ends with the cursor, answer, content and steps run of the specification Go (skip to the side's next step, run its consecutive steps, the last step of a line reported as success), and iStep moves with the cursor |
| ActionLines.ActionLine.Add | DPN_TransmitProcessor.h:160-166 | Appends a step; a cursor that was null goes to the start of the line |
| PacketProcessors.TransmitProcessor.Action | DPN_TransmitProcessor.cpp:416-454 | Running the opening action in place leaves exactly the processor of the specification, from which the dialog theorems start; without a line it fails and changes nothing |
| PacketProcessors.TransmitProcessor.ActionOn | DPN_TransmitProcessor.cpp:455-497 | Running the action on a received payload in place leaves exactly the processor that `DialogContents.DeliveredContent` and `Payloads.RefusedPayload` speak of: refused content, empty payload, missing line, failed flag, fault handler, resend flag, parsed answer |
| PacketProcessors.PacketProcessor.constructor | DPN_TransmitProcessor.cpp:14-19 | A new peer is the specification's initial node for its side |
| PacketProcessors.PacketProcessor.GetProcessor | DPN_TransmitProcessor.cpp:363-378 | Hands out a pooled processor of the type, the one `PoolPath.OldestFirst` speaks of, or a new one never seen before; none for a type no one creates, though the pool has learnt its name |
| PacketProcessors.PacketProcessor.ReturnProcessor | DPN_TransmitProcessor.cpp:379-391 | The processor goes behind the others of its type, if the pool knows the type |
| PacketProcessors.PacketProcessor.Send | DPN_TransmitProcessor.cpp:20-32 | On shared heap objects, the index check, registering and queueing change exactly what the specification step changes and no other processor |
| PacketProcessors.PacketProcessor.Generate | DPN_TransmitProcessor.cpp:33-78 | One call over heap processors and queues equals the specification step Generate, with its event, and returns that step's packet |
| PacketProcessors.PacketProcessor.Register | DPN_TransmitProcessor.cpp:296-313 | Registering an incoming transaction equals the specification step Admit; every other processor is untouched |
| PacketProcessors.PacketProcessor.Process | DPN_TransmitProcessor.cpp:79-132 | On a packet whose content fits, one call equals the specification step Process with its event; it fails exactly for an unregistered key of an unknown type, and then only the pool has learnt the type |
| PacketProcessors.PacketProcessor.ProcessBuffer | DPN_TransmitProcessor.cpp:79-132 | On the bytes of any sendable packet whose key is registered for its type, or is new while its type is known, whatever lies behind them, one call does what the specification step Process does on that packet; on any other bytes: an empty buffer is nothing, one shorter than the header is refused, an unknown type is refused, and else the transaction's processor takes the payload apart by its own type, acting on it, refusing it without an action, or straying |
| Payloads.HeaderBytes | DPN_TransmitProcessor.h:270-277 | A received packet is looked up under the number in bytes 4 to 8 and, when that is new, registered under the type in bytes 0 to 4 |
| Payloads.RawBytes | DPN_TransmitTools.cpp:47-87 | The payload byte by byte: the length of the flags unit, the flags unit, then the encoding of the units |
| Payloads.ContentExactly | DPN_TransmitTools.cpp:92-161 | A payload is kept exactly when empty, refused unwalked exactly when it has one to three bytes, loaded exactly when it decodes and then as what it decodes to, flag bit included, refused with all items emptied exactly when it neither decodes nor strays |
| Payloads.RefusedPayload | DPN_TransmitProcessor.cpp:456-463 | A refused payload runs no step, calls no handler, sends, queues and recycles nothing and changes no other processor; the items are all empty or all as they were |
| Payloads.NoLineRefuses | DPN_TransmitProcessor.cpp:456-459 | A processor without a line refuses every payload and stays as it was |
| Payloads.EmptyPayload | DPN_TransmitTools.cpp:92-95 | An empty payload is taken like a packet with the content the processor already has |
| Payloads.BytesArePacket | DPN_TransmitProcessor.cpp:86-110 | What ProcessBuffer's contract says of arbitrary bytes is, on the bytes of an expected packet, the specification step on that packet, without straying |
| CursorLists.DrainWraps | DPN_TransmitProcessor.cpp:217-235 | Popping until the list is empty yields the elements from the cursor to the end and then from the front to the cursor, none lost or doubled |
| CursorLists.InsertedIsLast | DPN_TransmitProcessor.cpp:194-211 | An element inserted before the cursor of a non-empty list comes out last |
| CursorLists.MovedComesAfter | DPN_TransmitProcessor.cpp:240-254 | What is moved over comes out, in order, behind the last element and before the popping wraps to the front, wherever the cursor stands |
| CursorLists.PushedComesOut | DPN_TransmitProcessor.cpp:161-193 | An element pushed behind comes out last before the popping wraps, one pushed in front right after; all others keep their order |
| CursorLists.SkipsGoRound | DPN_TransmitProcessor.cpp:231-235 | Skipping visits the elements from the cursor to the end and then from the front; as many skips as elements lead back |
| CursorLists.RestartedDrains | DPN_TransmitProcessor.cpp:236-239 | After a restart the elements come out from the front; an element that comes to an empty list, by whatever way, is under the cursor and comes out alone |
| ProcessorLists.ListNode.Exclude | DPN_TransmitProcessor.h:196-201 | Connects the neighbours with each other and changes nothing else |
| ProcessorLists.ProcessorList.PushBack | DPN_TransmitProcessor.cpp:161-179 | The chain of nodes stays well shaped and its (sequence, cursor) value is the old one with the element behind it |
| ProcessorLists.ProcessorList.PushFront | DPN_TransmitProcessor.cpp:180-193 | The element is in front and the cursor stays on the element it was on, or on the only one |
| ProcessorLists.ProcessorList.InsertToActual | DPN_TransmitProcessor.cpp:194-211 | The element lands just before the cursor, in front when the cursor is at the front or there is none |
| ProcessorLists.ProcessorList.GetActual | DPN_TransmitProcessor.cpp:212-216 | The element under the cursor, none for the empty list |
| ProcessorLists.ProcessorList.PopActual | DPN_TransmitProcessor.cpp:217-230 | The element under the cursor leaves; the cursor goes to its successor or wraps to the front; first, head and actual are null together |
| ProcessorLists.ProcessorList.Skip | DPN_TransmitProcessor.cpp:231-235 | The cursor goes to the successor or wraps to the front |
| ProcessorLists.ProcessorList.Move | DPN_TransmitProcessor.cpp:240-254 | The chains are joined in order, the other list ends up empty, the nodes are the nodes of both |
| ThreadSafeLists.ThreadSafeList.GetNode | DPN_Util.h:161-168 | A recycled node without links or a new one, in neither the live chain nor the free-list |
| ThreadSafeLists.ThreadSafeList.PushBack | DPN_Util.h:64-75 | The stack grows by the value; live nodes and free-list stay disjoint, free nodes carry no links, iSize is the stack's length |
| ThreadSafeLists.ThreadSafeList.PopBack | DPN_Util.h:148-155 | The top leaves and its node goes to the free-list; nothing happens on an empty stack |
| ThreadSafeLists.ThreadSafeList.TakeLast | DPN_Util.h:94-102 | The latest value not yet taken, or the default when there is none |
| ThreadSafeLists.TakeMatchesPush | DPN_Util.h:64-102 | A take returns the value of the push it matches, whatever balanced pushes and takes came between, and restores the stack below |
| Contents.DecodeEncode | DPN_TransmitTools.cpp:47-87 | Decoding an encoding of n byte strings for n items gives those strings |
| Contents.EncodeDecode | DPN_TransmitTools.cpp:47-87 | Whatever decodes for n items is the encoding of the n strings it decodes to |
| Contents.DecodesExactly | DPN_TransmitTools.cpp:47-87 | A buffer decodes to given strings if and only if it is their encoding |
| Contents.CountIsFixed | DPN_TransmitTools.cpp:145-153 | An encoding of m items is accepted for n items if and only if n is m |
| Walks.StraysExactly | DPN_TransmitTools.cpp:123-143 | For all buffers and numbers of items the walk loads from beyond the buffer if and only if, behind fewer than n items lying inside it and ending at p, the announced size exceeds 2^31 - 1 - 4 - p, be it read from the buffer or partly from behind its end |
| Walks.WalkDecodes | DPN_TransmitTools.cpp:123-153 | A walk that does not stray loads exactly the strings the buffer is the encoding of and refuses exactly when there are none; where it strays there are none |
| Walks.EncodedStaysInside | DPN_TransmitTools.cpp:47-87 | No buffer laid out as a content ever strays, for however many items it is taken apart and whatever lies behind it |
| Walks.LargestLengthStrays | DPN_TransmitTools.cpp:131 | The four bytes FF FF FF 7F encode no item, and yet the walk for one item takes it, all from beyond the buffer |
| Walks.TailStrays | DPN_TransmitTools.cpp:125 | At the very end of a buffer the bytes behind it decide: one byte FF behind an empty item strays for exactly one value of the three bytes that follow |
| TransmitContents.TransmitContent.ParseBuffers | DPN_TransmitTools.cpp:47-87 | The loop lays out exactly the encoding of the items, behind its total length when that is asked for |
| TransmitContents.TransmitContent.DeparseBuffer | DPN_TransmitTools.cpp:92-161 | The in-place walk, its range check in 32-bit ints, leaves a buffer exactly when it strays; otherwise it accepts exactly what decodes for the registered number of items, at least one, and loads those, and a rejected walk leaves every item empty; an empty buffer is accepted and a refused one of fewer than four bytes changes nothing |
| TransmitContents.TransmitContent.ClearItems | DPN_TransmitTools.cpp:37-41 | Every item is empty afterwards, their number is unchanged |
| Wire.Int32Round | DPN_TransmitTools.h:22-29 | Any 32-bit number, negative ones included, is read back from its four bytes |
| Wire.FromInt32Round | DPN_TransmitTools.h:22-29 | Any four bytes are the bytes of the number they are read as |
| Wire.IntBytes | DPN_TransmitTools.h:22-29 | The four bytes of an int are its base-256 digits, the least significant first, two's complement when it is negative |
| Wire.LongIsTwoWords | DPN_TransmitTools.h:22-29 | Eight bytes are read as the low word first and the high word behind it |
| Mediators.TextRound | DPN_TransmitTools.h:107-119 | A string of any bytes is read back wherever its encoding lies, and the position ends right behind it |
| Mediators.ArrayRound | DPN_TransmitTools.h:151-170 | An array is read back element by element wherever it lies, for any element mediator that reads back what it saves |
| Mediators.PeerRound | DPN_TransmitTools.h:189-203 | The same for a peer address |
| Mediators.BlockRound | DPN_TransportHandler.h:184-196 | The same for a block |
| Mediators.MetadataRound | DPN_FileSystemProcessors.h:26-40 | The same for file metadata with its array of blocks nested inside |
| Layouts.TextLayout | DPN_TransmitTools.h:38-48 | The bytes saved for a string are exactly: its length as a word, then its characters |
| Layouts.PeerLayout | DPN_TransmitTools.h:189-203 | Those of a peer address: the port in bytes 0 to 4, the address behind its length from byte 4 on |
| Layouts.BlockLayout | DPN_TransportHandler.h:184-196 | Those of a block: start in bytes 0 to 8, size in 8 to 16, flags in byte 16, the hash behind its length from byte 17 on |
| Layouts.ArrayLayout | DPN_TransmitTools.h:151-170 | Those of an array: the count in bytes 0 to 4, then each element where the one before it ends, if the elements follow a layout |
| Layouts.MetadataLayout | DPN_FileSystemProcessors.h:26-40 | Those of file metadata: the blocks, then, from where they end, key at 0, size at 4, name behind its length at 12, and behind the name a byte each for strictable and verified |
| Layouts.FilesLayout | DPN_TransmitTools.h:151-170 | Those of an array of file metadata, by the same layout |
| Layouts.ContentLayout | DPN_TransmitTools.cpp:47-87 | A buffer is the encoding of given items exactly when length and bytes of each lie where the item before it ends and nothing follows |
| Layouts.LayoutsReadBack | DPN_TransmitTools.h:30-119 | Reading where the fields of a string, an address, a block or metadata lie gives that value and ends behind it |
| Layouts.ReadLies | DPN_TransmitTools.h:30-119 | A string, an address or a block that is read lies there: nothing else is read |
| Layouts.BlocksRead | DPN_TransmitTools.h:162-170 | An array of blocks is read exactly where it lies; a count that is not positive is read as no block |
| TypedValues.ValueRound | DPN_TransmitTools.h:22-48 | Ints, sizes, bytes, bools, strings, peer addresses, blocks, file metadata, arrays of blocks and arrays of file metadata: wherever the encoding of such a value lies, reading its kind there gives it back and stops exactly behind it |
| TypedValues.SelfDelimiting | DPN_TransmitTools.h:22-48 | Any sequence of values of these kinds, saved one after the other between any bytes, is read back by its kinds, the position ending exactly behind the last |
| TypedValues.PrefixFree | DPN_TransmitTools.h:22-48 | Among sequences of the same kinds no encoding is a proper prefix of another, and different values have different encodings |
| TypedValues.ArraysReadBack | DPN_TransmitTools.h:151-170 | The mediators of arrays of blocks and of file metadata read back what they save, because those of their elements do |
| MediatorObjects.ExpandableBuffer.AppendText | DPN_TransmitTools.h:38-48 | save appends to the buffer exactly the bytes the round trips are about, laid out as a string |
| MediatorObjects.ExpandableBuffer.AppendPeer | DPN_TransmitTools.h:189-203 | The same for a peer address: port, then address, at their offsets |
| MediatorObjects.ExpandableBuffer.AppendBlock | DPN_TransportHandler.h:184-196 | The same for a block: start, size, flags and hash lie at their offsets behind the old bytes |
| MediatorObjects.ExpandableBuffer.AppendBlocks | DPN_TransmitTools.h:151-156 | The same for the loop over an array of blocks |
| MediatorObjects.ExpandableBuffer.AppendMetadata | DPN_FileSystemProcessors.h:26-40 | The same for file metadata, every field at its offset |
| MediatorObjects.Reader.TakeText | DPN_TransmitTools.h:107-119 | upload moves the position to where the specification's read ends and gives its value, or tells that the read leaves the buffer; where a string lies at the position, that string is taken |
| MediatorObjects.Reader.TakePeer | DPN_TransmitTools.h:189-203 | The same for a peer address laid out at the position |
| MediatorObjects.Reader.TakeBlock | DPN_TransportHandler.h:184-196 | The same for a block: start, size, flags and hash are taken from their offsets |
| MediatorObjects.Reader.TakeBlocks | DPN_TransmitTools.h:162-170 | The same for the loop that pushes the elements one by one; a size that is not positive reads no element |
| MediatorObjects.Reader.TakeMetadata | DPN_FileSystemProcessors.h:26-40 | The same for file metadata laid out at the position |
| ArrayUnits.IncrementCount | DPN_TransmitTools.h:304 | Incrementing the four count bytes in place gives the bytes of the next count, carries included, below the largest int |
| ArrayUnits.AddedIsSaved | DPN_TransmitTools.h:300-312 | Adding the elements one by one gives exactly the bytes of bulk assignment, for at least one element |
| ArrayUnits.AddedExactly | DPN_TransmitTools.h:300-312 | The two buffers are equal if and only if there is at least one element |
| ArrayUnits.BothReadBack | DPN_TransmitTools.h:313-319 | Both ways of building the unit read back as the same array, the empty one included |
| ArrayUnits.ArrayUnit.Add | DPN_TransmitTools.h:300-308 | Takes the buffer that holds the elements added so far, in place, to the one that holds them and the new one |
| ArrayUnits.ArrayUnit.Assign | DPN_TransmitTools.h:309-312 | The loop writes the encoding of the whole array |
| ArrayUnits.ArrayUnit.Read | DPN_TransmitTools.h:313-319 | Reads exactly the array the buffer holds; fails only when a read leaves the buffer |
| Framing.MakePacket | DPN_TransmitProcessor.cpp:138-159 | Header and product make the frame: length of the rest, type, transaction, payload |
| Framing.FrameBytes | DPN_TransmitProcessor.cpp:138-159 | A frame byte by byte: the number of bytes behind it in 0 to 4, the type in 4 to 8, the transaction in 8 to 12, the payload from 12 on; without the length the type is in 0 to 4 and the transaction in 4 to 8 |
| Framing.StripBytes | DPN_TransmitProcessor.cpp:86-103 | Taking the header off reads the type from bytes 0 to 4, the transaction from 4 to 8 and the payload from 8 on, and fails exactly below eight bytes |
| Framing.NodeConnector.ReceivePacket | DPN_NodeConnector.cpp:143-171 | From the idle state: one frame is taken off the stream and the connector is idle again; a length of zero is an empty packet; a negative length or one beyond the bytes at hand fails and leaves the length pending. With a length pending the same from there on; a failure leaves the buffer as it was |
| Framing.NodeConnector.Next | DPN_NodeConnector.cpp:143-171 | From any stream that begins with a packet's frame, that packet is received, whatever was in the buffer before, and the rest of the stream is untouched |
| Framing.NodeConnector.ReceiveAll | DPN_NodeConnector.cpp:143-171 | Any sequence of packets put on the stream is received as the same sequence, with the connector idle behind them |
| Framing.FramesUnique | DPN_TransmitProcessor.cpp:138-159 | Different sequences of packets never make the same stream |
| PacketWire.PacketRound | DPN_TransmitProcessor.cpp:86-110 | A packet of the dialogs laid out as content, flags unit written or not, inside a frame is recognised as the same packet on the other side, whatever lies behind it in memory |
| PacketWire.TakeFramesRound | DPN_NodeConnector.cpp:143-171 | Taking frames off a stream until it is used up gives back the packets it was made of |
| PacketWire.ChannelRound | DPN_TransmitProcessor.cpp:138-159 | Whatever sendable packets are laid out and framed one after the other, taking the stream apart gives the same packets in the same order |
| WireDialogs.WireRunIsRun | DPN_TransmitProcessor.cpp:33-159 | Every run of two peers over byte streams, a frame appended by each call that sends and taken apart by each delivery, is a run over channels of packets, state by state, each stream holding exactly the frames of the packets under way: what is proved of the dialogs holds over bytes |
| WireDialogs.EveryStreamDelivers | DPN_TransmitProcessor.cpp:79-110 | In every such run a stream that is not empty hands over a packet: the frame is whole and its payload neither refused nor left |
| WireDialogs.SendableExactly | DPN_TransmitProcessor.cpp:138-147 | In every run type and key of each packet under way fit their words: it can be sent if and only if its units are as many as registered and not too large |
| WireDialogs.WireTraceIsPrefix | DPN_TransmitProcessor.cpp:33-159 | Over byte streams too the trace of every transaction is a prefix of its line |
| Handshake.RunInv | DPN_Network.cpp:216-499 | The handshake invariant holds in every state of every run |
| Handshake.StateIsDecision | DPN_Network.cpp:404-409 | In every state of every run the incoming side is in ACCEPT exactly when the first decision of its user was to accept, in REJECT exactly when it was to reject, in WAIT exactly when there was none |
| Handshake.NoSignalUnlessAccepted | DPN_Network.cpp:404-432 | As long as the user has not accepted, the incoming side has sent nothing but its greeting, the outgoing side waits, and the incoming line is past waiting only after a rejection |
| Handshake.ItemsExchanged | DPN_Network.cpp:305-345 | The outgoing side ends with the incoming side's session key, shadow key and avatar and the agreed signal; the incoming side holds the outgoing ones when it makes its answer |
| Handshake.PacketsFit | DPN_Network.cpp:253-265 | Every packet a side takes apart is of the kind that step expects |
| Handshake.Agreement | DPN_Network.cpp:305-345 | If the outgoing side has accepted, the first decision of the incoming side's user was to accept, and each side's remoteName is the other's local name |
| Handshake.DialogMeansVerified | DPN_Network.cpp:292-393 | If the incoming side is through its dialog, the outgoing side had accepted and both computed the same signal |
| Handshake.RejectedSendsNoSignal | DPN_Network.cpp:404-415 | Once the user's first decision is to reject, in every later state and whatever the user does then, the incoming side is rejected, no signal is on its way or has been received, the outgoing side has accepted nothing and never gets past waiting; when nothing more can happen the incoming line has failed at its dialog step |
| Handshake.AcceptedFinishes | DPN_Network.cpp:276-499 | Once the user has accepted first, in a state where neither side can make progress both lines are finished if and only if the two sides agree on the signal; otherwise the outgoing side has refused |
| Handshake.StepsEnd | DPN_Network.cpp:276-499 | Every step that is not a REPEAT brings the end nearer and keeps the invariant, so such a state is reached |
| ConnectionObjects.WaitingConnection.Meet | DPN_Network.cpp:226-265 | The meeting steps on the shared object do what the flat steps of the handshake theorems do |
| ConnectionObjects.OutgoingConnection.Process | DPN_Network.cpp:276-345 | One process call through the outer line and the nested meeting and dialog lines does exactly what running the flat line from the same step does: same state, same packets, same step reached, same answer |
| ConnectionObjects.IncomingConnection.Process | DPN_Network.cpp:401-499 | The same for the incoming side, whose dialog line is only made when the user accepts |
| ConnectionObjects.IncomingConnection.Accept | DPN_Network.cpp:404-406 | A waiting connection is accepted; one that has been decided stays as it was |
| ConnectionObjects.IncomingConnection.Reject | DPN_Network.cpp:407-409 | A waiting connection is rejected; one that has been decided stays as it was |
| HandshakeCalls.OutCallIsSteps | DPN_Network.cpp:276-278 | One process call of the outgoing side is a run of its handshake steps, stopping with the first that does not succeed or with the last of the line, and what it delivers to the other side is exactly what its wire has gained |
| HandshakeCalls.InCallIsSteps | DPN_Network.cpp:401-403 | The same for the incoming side |
| HandshakeCalls.CallsAreSteps | DPN_Network.cpp:276-499 | Whatever process calls the two sides' owners make and whenever the user decides, the state reached is one that a run of single handshake steps reaches, after the same decision of the user |
| HandshakeCalls.CallsAgree | DPN_Network.cpp:276-499 | After any such calls the handshake invariant holds, the state shows the user's first decision, and, accepted and with no progress possible, the handshake is finished exactly when the signals agree |
| ResumableLines.ActionLine.GoLine | DPN_Util.h:298-319 | The loop ends with cursor, answer and attempts of the specification Go: a finished or empty line fails without an attempt, a failure or REPEAT leaves the cursor on its step |
| ResumableLines.GoAnswers | DPN_Util.h:298-319 | A call attempts the steps from the cursor on in order, each once; it answers what its last attempt answered, all before it succeeded, and the cursor stays on the step that failed or asked for a repeat or is at the end |
| ResumableLines.NestedIsFlat | DPN_Util.h:298-319 | One call of an outer line over nested lines makes the same attempts, gives the same answer and ends at the same place as one call of the flattened line, for any answers |
| ResumableLines.CallsAreFlat | DPN_Util.h:298-319 | The same for any number of calls, over any pattern of REPEAT and FAIL answers |
| ResumableLines.SucceedsOnceInOrder | DPN_Util.h:298-319 | After any number of calls the inner steps that have succeeded are exactly the first ones of the flattened line, each once and in order |
| ResumableLines.EmptyInnerFails | DPN_Util.h:300-304 | An empty inner line fails the call at once, which is why flattening needs inner lines to have steps |
| Dispatch.SessionsGrow | DPN_FileSystem.cpp:240-262 | Every slice goes to exactly one channel: each session is the old one followed by its share of the slices in order |
| Dispatch.GreedyAt | DPN_FileSystem.cpp:241-251 | Each slice goes to the first of the channels whose load, after the slices before it, is the least |
| Dispatch.GreedyIsOptimal | DPN_FileSystem.cpp:240-262 | The final maximum load is no larger than under any other assignment of the same number of slices, from any initial loads |
| Dispatch.SpreadShrinks | DPN_FileSystem.cpp:240-262 | The final difference between largest and smallest load is at most the initial one, or one |
| Dispatch.FileSystem.Pick | DPN_FileSystem.cpp:241-251 | The inner loop finds the first of the least loaded channels |
| Dispatch.FileSystem.Send | DPN_FileSystem.cpp:220-264 | Refused exactly for a bad interface or without channels; otherwise each channel's session has grown by its share of the slices, the largest load is at most that of any other assignment, the spread at most the initial one or one, and exactly the channels picked have been set to work besides those that were |
| References.RunInv | DPN_Interface.h:55-66 | In every run of constructions, copies, assignments and destructions the two counters of every base count its descriptors and all its references, so the first is at most the second |
| References.Lifetime | DPN_Interface.h:135-155 | Data has been deleted once if at some moment so far its base had no descriptor, and never otherwise; the base has been released once if it has no reference of either kind, and never otherwise |
| References.ReleasedForGood | DPN_Interface.h:150-153 | A released base is never held again, so it is released exactly once |
| References.InterfaceIsBad | DPN_Interface.h:247-253 | An interface reports bad if and only if it holds nothing or its data was at some moment left by every descriptor, even if a descriptor was later assigned from it |
| References.KindsStay | DPN_Interface.h:118-134 | In every run a reference keeps its kind whatever it is assigned from |
| References.AssignmentMoves | DPN_Interface.h:118-134 | An assignment leaves the own base and joins the other's, even when both are one base; assigned to itself a reference ends up empty; no other reference and no other base changes |
| References.InnerWatcher.Kick | DPN_Interface.h:135-155 | The reference lets go; data and base are dropped exactly when the counters say so |
| References.InnerWatcher.Copy | DPN_Interface.h:118-134 | Own base first left, then the other's joined, both on one base included; a reference assigned to itself ends up empty |

## Left out

- DialogTheorems.TraceIsPrefix: speaks of lines that begin with a host step or have server steps only, as all declared lines do (`DialogLimits.OrderExactly`); REPEAT answers are excluded, since there a REPEAT moves the cursor on and no step gives one.
- DialogTheorems.AtRest: failures of the last step of a line count as success, as in `go`. A run in which a line of several server steps fails early is excluded from that failure on, for transactions of other types too, although those share no processor with it.
- PacketProcessors.PacketProcessor.GetProcessor: the pool belongs to one peer in the model and to the whole program in the source; binding to the underlayer is dropped. The queues in this class are cursor-list values, which the objects of `ProcessorLists` refine.
- PacketProcessors.PacketProcessor.ProcessBuffer: that pooled processors are of their type, a condition of the packet clause, is what `PoolPath.OldestFirst` shows of every history. What a processor does after its content has strayed is not modelled.
- ProcessorLists.ProcessorList.Move: moving an empty list onto a non-empty one is excluded, as the source's caller does. The node pool behind `getNode` is a fresh node here.
- TransmitContents.TransmitContent.DeparseBuffer: an int sum that does not fit is taken to wrap around, as the compilers the program is built with do.
- WireDialogs.WireRunIsRun: the units a callback leaves are assumed to fit a content, in number and size.
- TypedValues.SelfDelimiting: reads that leave the buffer are told apart (`Beyond`), where the source reads on.
- Framing.NodeConnector.ReceivePacket: whole transfers only; resuming after a part of a packet is not modelled.
- Handshake.AcceptedFinishes: connecting is assumed to succeed; closing a dropped connection is not modelled, so a side whose partner has failed just waits. The attached address and the flags unit are not modelled.
- References.InnerWatcher.Kick: the library classes below are taken as one base pointer and one counter; counters are unbounded.
- ThreadSafeLists.ThreadSafeList.PushBack: `moveTo`, `clear` and `empty` are not part of this model, because they leave the first pointer and links stale.
- Sockets, threads, logging, time, hashing, directories, media and the command interface: input/output or code of other libraries.
- `DPN_ProcessorList::clear`: recycles nodes with their links.
- The mediators of arrays of plain numbers and of time moments: what they write is not what they read.
- Prefix reservations of contents: nothing uses them.
- `Slice::read`, `Writer`, proxy and server code, chat, the module registry, channel threads: stubs or one-line properties.
