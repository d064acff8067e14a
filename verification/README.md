# Chat servers and their dummy client: a verified model

The repository holds a family of game chat servers on one network library, and a
dummy client that loads them. This project models the parts in which a mistake
would stay unseen for long, and proves what they promise for every input, every
run, or every interleaving of threads.

**The dummy client's bytes.** `RingBuffer.dfy` is the circular buffer as a class
over an array, each method proved against one abstract queue; `RingBufferRuns.dfy`
proves that any run of it is a run of a bounded FIFO that loses nothing, and that
the zero-copy interface equals the copying one. `Bytes.dfy`, `Messages.dfy`, `PacketBuffer.dfy`
and `MakePacket.dfy` are the packet builders, `Cipher.dfy` the two-key cipher and
checksum, `Framing.dfy` and `Receive.dfy` the way a byte stream is cut back into
packets: the messages built are the messages read, however the network cuts them.

**Sectors.** `SectorGrid.dfy` and `SectorIndex.dfy` are the client's grid of
session lists; `ServerSector.dfy` the single-threaded server's, and the proof that
both keep the same players in every cell. `SectorMoves.dfy` is the client's
multi-threaded form, one step per locked region; `SectorLocks.dfy` the
multi-threaded server's, which holds two locks for a move and up to nine for a
broadcast, and inside a broadcast or a login possibly those of another session's
disconnect handler. Both are proved over every interleaving. `SectorAlone.dfy` has
what each message does when nobody disturbs it. `SectorProgress.dfy` says which of the server's workers wait for which, `SectorTangle.dfy` has two runs
in which that goes wrong.

**Registries.** `KeyTable.dfy` (duplicate logins), `UserTable.dfy` (login slots),
`RttStats.dfy` (statistics window; `Integers.dfy` has the C++ arithmetic,
`Wrappers.dfy` the optional value).

**The network library's lock-free core.** `SessionRelease.dfy` is the reference
count that shares and frees session slots, `SessionIndices.dfy` the admission
counter and index stack, `LockFreeStack.dfy` and `LockFreeQueue.dfy` the two
lock-free containers. A state has every thread's next step in it, and a step is
one atomic memory operation.

Classes whose methods update fields are classes here; pure computations are
functions; protocols of several threads are state machines whose steps are
events. Fields marked in the comments as recorded for the proof are read by no
step of the modelled code.

## Promises that do not hold

Where a property one would expect is false of the code, the model keeps the code
and the project gives a concrete run and the condition under which the property
holds, with both directions where not said otherwise.

- *One session per character key* holds throughout a run exactly if every login that
  makes its session active finds the active session of its key, if there is one, in the
  table (`OnePerKeyExactly`). *The table lists the active sessions* throughout a run
  exactly if every accepted login completes and is of a session that was not told to go,
  and every disconnect handler deletes its own key entry and no other
  (`RightExactlyInCleanRuns`). `DeleteID` ignores the session it is given
  (`LateDepartureBreaksIt`), a session that leaves before it is placed deletes nothing
  (`UnplacedDepartureKeepsThePlace`), and a login with a bad name keeps its key and may
  be repeated with another (`OneSessionFillsTheTable`).
- *A refused connection leaves no trace*: the accept loop raises the login counter
  before it looks and keeps it raised on a refusal (`AdmittedExactly`,
  `RefusalsAreNeverForgotten`).
- *Session indices fit the slot array, one session each* over a run exactly if every
  admitted accept finds fewer indices taken than there are slots, and the index stack's
  own counter above 0 (`IndicesFitExactly`). A disconnect lowers the login counter
  before its index is back on the stack, and the stack's counter is raised after that;
  while it is 0 the stack yields index 0, which then belongs to two sessions
  (`SharedExactlyWhenDrained`). Two disconnects under way at an accept can lead to an
  index outside the array (`IndexOutsideTheArray`) or to index 0 (`CounterLags`); one
  cannot (`OneOverlapIsSafe`). The stack holds 20000 indices and the library's default
  limit is 30000 (`EmptyStackSharesZero`).
- *Whoever holds a session holds the one it asked for*, except that id 0 passes both
  checks exactly while an accept is between opening the slot and writing the id
  (`ZeroIdPassesWhileOpening`).
- *A session is indexed once*: the dummy client counts a second character of an active
  session and goes on. The index is right throughout a run exactly if no join meets a
  session that stands in a list (`IndexRightExactlyIfSeparate`, `CreatedTwice`).
- *A broadcast is a snapshot of one moment* exactly if it runs no disconnect handler of
  a session it sends to (`SnapshotExactly`, `NoSnapshot`).
- *Some worker of the multi-threaded server can go on*: not always. The cell locks and
  the lock of the key table are taken in both orders, by a handler inside a broadcast
  and by a handler inside a login. Every worker is served exactly unless the holder of
  the key table is a login whose handler waits, directly or along further holders, for
  a broadcast whose handler waits for the key table (`ServedExactlyUnlessCrossed`,
  `KnotExactly`); the workers that wait for one another then do so for ever
  (`KnotForEver`, `TwoWaitForEver`).
- *The lock-free stack* is a stack throughout a run exactly if every successful pop
  still finds behind its node the node it read there (`HoldsExactlyIfFits`), which is so
  while fewer than 2^17 pushes were counted between a push and the pop that saw it
  (`TimelyRunsFit`); with exactly 2^17 it need not be (`OneNodeTwice`).
- *The lock-free queue is first in, first out* throughout a run exactly if no enqueue
  links to a node that has been dequeued and taken for another enqueue in the meantime
  (`FifoExactlyIfStraight`, `AstrayMeansReused`, `OneThreadOvertakesItself`), given that
  no word of head or tail is taken for an earlier one, which needs numbers 2^17 apart
  (`StaleMeansWrap`, `OneValueTwice`; only this direction is proved).
- *The average round trip lies between least and greatest* if the sum fits 32 bits and a
  float can hold the mean (`SnapshotIsOrdered`). Only this direction is proved; the two
  conditions are exactly those under which the average is the mean (`AverageIsMean`),
  and with either missing it can lie outside (`AverageBelowLeast`).
- *Client and server understand each other* only with equal fixed keys; those in
  the committed sources differ (`FixedKeysMustAgree`, `ShippedKeysDiffer`).

Code and comments disagree in one place: a comment in `NetWorkLib/Session/Session.h`
says the index stack holds 1 to 20000; the code pushes 19999 down to 0, and the
model follows the code.

## Reading the table and the contracts

Many files of the repository are written in code page 949 and not in UTF-8. For
code in such a file the table's second column cites the lines of a UTF-8 file that
declare it or state the design, and the third names its body by file and lines
(files of the client without their directory).

`Contents()` is the queue a ring buffer stands for, `Content()` and `Unread()` what
a packet buffer holds. `IndexedAt(lists, x, c)`: x stands once in the list of cell
c and in no other; `Absent`: in none; `Placed`: the one or the other, depending on
whether the cell exists; `Times(s, x)`: how often x occurs in s. In the state
machines `Next` performs one event, `Run` a sequence of them that is `Possible`,
`Inv` holds before and after every event, and `Reachable` says that some run leads
to a state; where a promise has a condition on the run, only by runs that meet it.

## Model

| member | source | states |
|---|---|---|
| `RingBuffers.RingBuffer.Enqueue` | Dummy/ChatDummyT/ChatDummy - 복사본/ChatDummy/RingBuffer.cpp:61-71 | Appends all `size` bytes or none (1 <= size <= free), returns how many, for every wrap-around; the bytes are added to the history of bytes put in |
| `RingBuffers.RingBuffer.Dequeue` | Dummy/ChatDummyT/ChatDummy - 복사본/ChatDummy/RingBuffer.cpp:73-84 | Removes exactly the first `size` bytes held, in order, or nothing; the rest of the target is untouched; the bytes join the history of bytes taken |
| `RingBuffers.RingBuffer.Peek` | Dummy/ChatDummyT/ChatDummy - 복사본/ChatDummy/RingBuffer.cpp:86-97 | Shows the first `size` bytes or nothing and changes no part of the buffer |
| `RingBuffers.RingBuffer.MoveFront` | Dummy/ChatDummyT/ChatDummy - 복사본/ChatDummy/RingBuffer.cpp:131-137 | Drops exactly the first `size` bytes of the queue or nothing |
| `RingBuffers.RingBuffer.MoveRear` | Dummy/ChatDummyT/ChatDummy - 복사본/ChatDummy/RingBuffer.cpp:139-145 | Appends exactly the cells behind the rear pointer, as far as announced, or nothing |
| `RingBuffers.RingBuffer.WriteRear` | Dummy/ChatDummyT/ChatDummy - 복사본/ChatDummy/RingBuffer.cpp:99-145 | What recv does behind GetRearBuffer: within DirectEnqueueSize it leaves the queue unchanged, and the cells MoveRear would publish are the data (body: Network.cpp:58-59) |
| `RingBuffers.RingBuffer.Resize` | Dummy/ChatDummyT/ChatDummy - 복사본/ChatDummy/RingBuffer.cpp:13-41 | Keeps the content in the contiguous and in the wrapped case, starts it at offset 0 of a store half as large again, works only twice, and stays within 9/4 of the size at birth |
| `RingBuffers.RingBuffer.CopyUnwrapped` | Dummy/ChatDummyT/ChatDummy - 복사본/ChatDummy/RingBuffer.cpp:19-34 | The new store starts with the bytes held, copied in one or two runs |
| `RingBuffers.RingBuffer.ClearBuffer` | Dummy/ChatDummyT/ChatDummy - 복사본/ChatDummy/RingBuffer.cpp:125-129 | Leaves the empty queue |
| `RingBuffers.RingBuffer.GetUseSize` | Dummy/ChatDummyT/ChatDummy - 복사본/ChatDummy/RingBuffer.cpp:48-54 | Is the number of bytes held |
| `RingBuffers.RingBuffer.GetFreeSize` | Dummy/ChatDummyT/ChatDummy - 복사본/ChatDummy/RingBuffer.cpp:56-59 | Free and held bytes add up to one less than the size; a buffer without cells reports -1 |
| `RingBuffers.RingBuffer.DirectEnqueueSize` | Dummy/ChatDummyT/ChatDummy - 복사본/ChatDummy/RingBuffer.cpp:99-107 | Is min(free, cells up to the end of the store) |
| `RingBuffers.RingBuffer.DirectDequeueSize` | Dummy/ChatDummyT/ChatDummy - 복사본/ChatDummy/RingBuffer.cpp:109-123 | Is min(held, cells up to the end of the store) |
| `RingBuffers.RingBuffer.IsFull` | Dummy/ChatDummyT/ChatDummy - 복사본/ChatDummy/RingBuffer.cpp:147-150 | Exactly when one cell is left |
| `RingBuffers.RingBuffer.IsEmpty` | Dummy/ChatDummyT/ChatDummy - 복사본/ChatDummy/RingBuffer.cpp:152-155 | Exactly when the queue is empty |
| `RingBuffers.WrapIsRemainder` | Dummy/ChatDummyT/ChatDummy - 복사본/ChatDummy/RingBuffer.cpp:68-80 | Stepping a position with `%` is stepping round the store |
| `RingBuffers.AdvanceWrite` | Dummy/ChatDummyT/ChatDummy - 복사본/ChatDummy/RingBuffer.cpp:139-145 | Moving the write position over n free cells appends those n cells to the bytes held |
| `RingBuffers.AdvanceRead` | Dummy/ChatDummyT/ChatDummy - 복사본/ChatDummy/RingBuffer.cpp:131-137 | Moving the read position over n held cells removes the first n bytes |
| `RingBuffers.FreeCellsIrrelevant` | Dummy/ChatDummyT/ChatDummy - 복사본/ChatDummy/RingBuffer.cpp:99-107 | Cells outside the held window can change unnoticed |
| `RingBufferRuns.Replay` | Dummy/ChatDummyT/ChatDummy - 복사본/ChatDummy/RingBuffer.cpp:13-145 | Any run of the eight operations on the real buffer shows the same bytes and leaves the same queue as the run of an abstract bounded FIFO |
| `RingBufferRuns.NothingLost` | Dummy/ChatDummyT/ChatDummy - 복사본/ChatDummy/RingBuffer.cpp:61-84 | Over any run without Clear: bytes out, followed by bytes held, equal bytes held at the start, followed by bytes in |
| `RingBufferRuns.CapacityKept` | Dummy/ChatDummyT/ChatDummy - 복사본/ChatDummy/RingBuffer.cpp:13-41 | Over any run the content stays below the capacity, capacity never shrinks and grows at most twice, to at most 9/4 |
| `RingBufferRuns.ReceivePiece` | Dummy/ChatDummyT/ChatDummy - 복사본/ChatDummy/RingBuffer.cpp:99-145 | One recv into the contiguous room takes min(arrived, room) bytes, and leaves the buffer full or at the wrap point if bytes remain (body: Network.cpp:58-87) |
| `RingBufferRuns.ReceiveTwoPieces` | Dummy/ChatDummyT/ChatDummy - 복사본/ChatDummy/RingBuffer.cpp:99-145 | Two contiguous pieces take everything that arrives or fill the buffer completely (body: Network.cpp:58-87) |
| `RingBufferRuns.FlushTwoPieces` | Dummy/ChatDummyT/ChatDummy - 복사본/ChatDummy/RingBuffer.cpp:109-137 | Two contiguous pieces drain the buffer completely, in order (body: Network.cpp:162-202) |
| `RingBufferRuns.ZeroCopyPut` | Dummy/ChatDummyT/ChatDummy - 복사본/ChatDummy/RingBuffer.cpp:99-145 | Writing behind the rear and MoveRear leaves the same positions and queue as Enqueue |
| `RingBufferRuns.ZeroCopyTake` | Dummy/ChatDummyT/ChatDummy - 복사본/ChatDummy/RingBuffer.cpp:73-137 | Peek and MoveFront give the same bytes and leave the same positions and queue as Dequeue |
| `RingBufferRuns.ArithmeticFits` | Dummy/ChatDummyT/ChatDummy - 복사본/ChatDummy/RingBuffer.cpp:13-41 | The birth sizes for which all sums and products of the code, through both growths, stay 32-bit ints: exactly those up to 477218588 |
| `Ciphers.DecodeEncode` | Dummy/ChatDummyT/ChatDummy - 복사본/ChatDummy/Network.h:107-114 | Decode undoes Encode for every text, key pair and register state (body: Network.cpp:400-450) |
| `Ciphers.EncodeDecode` | Dummy/ChatDummyT/ChatDummy - 복사본/ChatDummy/Network.h:107-114 | And Encode undoes Decode, so the cipher is a bijection (body: Network.cpp:400-450) |
| `Ciphers.EncodedExactly` | Dummy/ChatDummyT/ChatDummy - 복사본/ChatDummy/Network.h:107-114 | What Encode and Decode put out, byte by byte: for every position the cipher byte, the plain byte and a middle byte are joined by exclusive ors with the previous middle and cipher byte plus random and fixed key plus the position counted from 1, modulo 256; and only such texts belong together (body: Network.cpp:400-450) |
| `Ciphers.FixedKeysMustAgree` | Dummy/ChatDummyT/ChatDummy - 복사본/ChatDummy/Network.h:107-114 | A nonempty text survives sender and receiver exactly if their fixed keys are equal (body: Network.cpp:400-450) |
| `Ciphers.ShippedKeysDiffer` | Dummy/ChatDummyT/ChatDummy - 복사본/ChatDummy/Network.h:107-114 | The client's Fixed_Code and the server library's STICKYKEY as committed garble every nonempty text (body: Protocol.h:5) |
| `Ciphers.CheckSumIsTotal` | Dummy/ChatDummyT/ChatDummy - 복사본/ChatDummy/Network.h:108-110 | The checksum is the sum of all bytes, modulo 256 (body: Network.cpp:365-398) |
| `Ciphers.CheckSumSeesOneChange` | Dummy/ChatDummyT/ChatDummy - 복사본/ChatDummy/Network.h:108-110 | Changing any one payload byte changes the checksum (body: Network.cpp:365-398) |
| `Messages.Payload` | Dummy/ChatDummyT/ChatDummy - 복사본/ChatDummy/MakePacket.cpp:15-103 | Has exactly the declared length, for every message and every chat length 0..255 |
| `Messages.PacketBytes` | Dummy/ChatDummyT/ChatDummy - 복사본/ChatDummy/MakePacket.cpp:5-104 | Every packet byte by byte, in numbers: code 0x89, length, random key 0x31, sum of the payload, type, direction, both coordinates in little-endian two's complement, text |
| `Messages.OnePacketSent` | Dummy/ChatDummyT/ChatDummy - 복사본/ChatDummy/Network.h:107-114 | The heartbeat packet and the seven bytes that leave the client for it under the fixed key 0xa9 (body: Network.cpp:400-425) |
| `Messages.UnwireWire` | Dummy/ChatDummyT/ChatDummy - 복사본/ChatDummy/Network.h:107-114 | Encoding a packet from its checksum byte on and decoding it gives the packet back (body: Network.cpp:400-450) |
| `Messages.ParsePayload` | Dummy/ChatDummyT/ChatDummy - 복사본/ChatDummy/MakePacket.cpp:5-104 | Accepts only payloads a builder makes |
| `Messages.ParsePayloadInverts` | Dummy/ChatDummyT/ChatDummy - 복사본/ChatDummy/MakePacket.cpp:5-104 | And gives every built message back |
| `PacketBuffers.PacketBuffer.Clear` | Dummy/ChatDummyT/ChatDummy - 복사본/ChatDummy/PacketBuffer.h:15 | Empties the buffer and keeps its store (body: PacketBuffer.cpp:18-23) |
| `PacketBuffers.PacketBuffer.ResizeBuffer` | Dummy/ChatDummyT/ChatDummy - 복사본/ChatDummy/PacketBuffer.h:25 | Keeps the content; succeeds exactly for a positive size above the content while fewer than three growths happened (body: PacketBuffer.cpp:42-66) |
| `PacketBuffers.PacketBuffer.PutByte` | Dummy/ChatDummyT/ChatDummy - 복사본/ChatDummy/PacketBuffer.h:28 | Appends the byte exactly if it fits or the store can be doubled (body: PacketBuffer.cpp:68-82) |
| `PacketBuffers.PacketBuffer.PutInt` | Dummy/ChatDummyT/ChatDummy - 복사본/ChatDummy/PacketBuffer.h:34 | Appends the four little-endian bytes exactly if they fit or the store can be doubled (body: PacketBuffer.cpp:134-149) |
| `PacketBuffers.PacketBuffer.EnqueueData` | Dummy/ChatDummyT/ChatDummy - 복사본/ChatDummy/PacketBuffer.h:64 | Appends all bytes or none and never grows the store (body: PacketBuffer.cpp:403-411) |
| `PacketBuffers.PacketBuffer.DequeueData` | Dummy/ChatDummyT/ChatDummy - 복사본/ChatDummy/PacketBuffer.h:63 | Hands out the first unread bytes, all or none (body: PacketBuffer.cpp:394-401) |
| `PacketBuffers.PacketBuffer.MoveWritePos` | Dummy/ChatDummyT/ChatDummy - 복사본/ChatDummy/PacketBuffer.h:21 | Publishes bytes written directly, all or none (body: PacketBuffer.cpp:25-33) |
| `PacketBuffers.PacketBuffer.SetCheckSum` | Dummy/ChatDummyT/ChatDummy - 복사본/ChatDummy/MakePacket.cpp:24 | Byte 4 becomes the checksum of what follows the header; no other byte changes (body: Network.cpp:365-380) |
| `PacketBuffers.PacketBuffer.GetPayloadCheckSum` | Dummy/ChatDummyT/ChatDummy - 복사본/ChatDummy/Network.h:110 | Is the checksum of the unread bytes once the header has been read (body: Network.cpp:382-398) |
| `PacketBuffers.PacketBuffer.Encode` | Dummy/ChatDummyT/ChatDummy - 복사본/ChatDummy/Network.h:112 | The in-place loop turns the content into its wire form (body: Network.cpp:400-425) |
| `PacketBuffers.PacketBuffer.Decode` | Dummy/ChatDummyT/ChatDummy - 복사본/ChatDummy/Network.h:114 | The in-place loop turns the wire form back (body: Network.cpp:427-450) |
| `PacketMakers.MakeMoveStart` | Dummy/ChatDummyT/ChatDummy - 복사본/ChatDummy/MakePacket.cpp:5-25 | Leaves exactly the packet of the message if and only if the buffer can hold or grow to it |
| `PacketMakers.MakeMoveStop` | Dummy/ChatDummyT/ChatDummy - 복사본/ChatDummy/MakePacket.cpp:27-47 | Likewise |
| `PacketMakers.MakeLocalChat` | Dummy/ChatDummyT/ChatDummy - 복사본/ChatDummy/MakePacket.cpp:49-68 | Likewise, for every length byte; the text itself does not grow the buffer |
| `PacketMakers.MakeChatEnd` | Dummy/ChatDummyT/ChatDummy - 복사본/ChatDummy/MakePacket.cpp:70-86 | Likewise |
| `PacketMakers.MakeHeartBeat` | Dummy/ChatDummyT/ChatDummy - 복사본/ChatDummy/MakePacket.cpp:88-104 | Likewise |
| `PacketMakers.DefaultBufferFits` | Dummy/ChatDummyT/ChatDummy - 복사본/ChatDummy/MakePacket.cpp:5-104 | The default 1400-byte buffer holds every message |
| `Framing.HeaderOnWire` | Dummy/ChatDummyT/ChatDummy - 복사본/ChatDummy/MakePacket.cpp:7-11 | The header of an encoded packet can be read as it is and tells where the packet ends (body: Network.cpp:94-103) |
| `Framing.FrameJudged` | Dummy/ChatDummyT/ChatDummy - 복사본/ChatDummy/Network.h:87-89 | A packet with any random key, check byte and payload is delivered if and only if the check byte is the sum of the payload modulo 256; the dispatcher then decides whether parsing goes on; otherwise nothing is delivered and exactly that packet is gone (body: Network.cpp:96-126) |
| `Framing.EveryStreamJudged` | Dummy/ChatDummyT/ChatDummy - 복사본/ChatDummy/Network.h:87-89 | Every other stream: too short for its header or for the packet announced, it waits; with a wrong first byte it is refused and kept (body: Network.cpp:91-104) |
| `Framing.ChangedByteIsRefused` | Dummy/ChatDummyT/ChatDummy - 복사본/ChatDummy/Network.h:87-89 | A built packet one of whose payload bytes was changed before it was encoded is not delivered (body: Network.cpp:118-123) |
| `Framing.ParseResumes` | Dummy/ChatDummyT/ChatDummy - 복사본/ChatDummy/Network.h:87-89 | Parsing a prefix and going on later gives the same packets and verdict as parsing all at once (body: Network.cpp:89-127) |
| `Framing.PiecesDoNotMatter` | Dummy/ChatDummyT/ChatDummy - 복사본/ChatDummy/Network.h:87-89 | However the network cuts the stream, the same packets come out (body: Network.cpp:55-130) |
| `Framing.ParseWireAll` | Dummy/ChatDummyT/ChatDummy - 복사본/ChatDummy/MakePacket.cpp:5-104 | Any concatenation of encoded packets is split back into exactly their payloads, whatever follows |
| `Framing.MessagesSurviveTheWire` | Dummy/ChatDummyT/ChatDummy - 복사본/ChatDummy/Network.h:87-89 | End to end: the messages sent are the messages read, in order, for every way of cutting the stream (body: Network.cpp:55-130) |
| `SocketHandlers.NetProcRecv` | Dummy/ChatDummyT/ChatDummy - 복사본/ChatDummy/Network.h:87-89 | Delivers to the dispatcher exactly the payloads the parse of all bytes so far yields, keeps exactly the bytes it leaves, and fails exactly on its verdicts (body: Network.cpp:55-130) |
| `SocketHandlers.DrainPackets` | Dummy/ChatDummyT/ChatDummy - 복사본/ChatDummy/Network.h:87-89 | The loop delivers every complete packet and stops with less than one packet queued (body: Network.cpp:89-127) |
| `SocketHandlers.NextPacket` | Dummy/ChatDummyT/ChatDummy - 복사본/ChatDummy/Network.h:87-89 | One turn takes exactly the first packet off the queue, or nothing (body: Network.cpp:91-123) |
| `SocketHandlers.TakePacket` | Dummy/ChatDummyT/ChatDummy - 복사본/ChatDummy/Network.h:87-89 | Decodes the first packet and compares its checksum; the queue loses exactly that packet (body: Network.cpp:110-119) |
| `SocketHandlers.ParseTurn` | Dummy/ChatDummyT/ChatDummy - 복사본/ChatDummy/Network.h:87-89 | One turn of the loop is one unfolding of the parse (body: Network.cpp:89-127) |
| `SocketHandlers.SendPacketUnicast` | Dummy/ChatDummyT/ChatDummy - 복사본/ChatDummy/Network.h:105 | Queues the whole encoded packet or, without room, nothing (body: Network.cpp:356-363) |
| `SectorGrid.CellOfInGrid` | Dummy/ChatDummyT/ChatDummy - 복사본/ChatDummy/Sector.cpp:58-59 | A position maps into the grid exactly if it lies in the covered area or in the strip, under one cell wide, that truncating division folds onto row or column 0 |
| `SectorGrid.EraseFirstTakesOne` | Dummy/ChatDummyT/ChatDummy - 복사본/ChatDummy/Sector.cpp:46-50 | find and erase take away exactly one occurrence |
| `SectorGrid.EraseOnce` | ChatSingleServer/Sector/Sector.cpp:27 | Where an element stands once, std::list::remove and find-erase do the same |
| `SectorGrid.GatherFinds` | Dummy/ChatDummyT/ChatDummy - 복사본/ChatDummy/Sector.cpp:7-24 | Reading several lists meets an indexed element once if its cell is among them, else never (body: main.cpp:1019-1030) |
| `SectorGrid.AroundIsUnique` | Dummy/ChatDummyT/ChatDummy - 복사본/ChatDummy/Sector.cpp:7-24 | The conditions on a neighbourhood (the cells, their order) leave only one sequence |
| `SectorIndexes.GetSectorAround` | Dummy/ChatDummyT/ChatDummy - 복사본/ChatDummy/Sector.cpp:7-24 | For any grid and centre: exactly the cells of the grid within one step, without repetition, row by row; the count is clipped width times clipped height and at most 9 |
| `SectorIndexes.SectorIndex.AddSector` | Dummy/ChatDummyT/ChatDummy - 복사본/ChatDummy/Sector.cpp:26-36 | Appends to the list of the cell, or does nothing outside the grid |
| `SectorIndexes.SectorIndex.RemoveSector` | Dummy/ChatDummyT/ChatDummy - 복사본/ChatDummy/Sector.cpp:38-54 | Erases the first occurrence from the list of the cell, or does nothing outside the grid |
| `SectorIndexes.SectorIndex.UpdateSession` | Dummy/ChatDummyT/ChatDummy - 복사본/ChatDummy/Sector.cpp:56-75 | CurSector becomes the truncated quotient; false exactly if it is unchanged; everybody is then in the right list or, outside the grid, in none; the lists are those of one erase and one append, or untouched; the others keep their order; the number of indexed sessions is conserved |
| `SectorIndexes.SectorIndex.Register` | Dummy/ChatDummyT/ChatDummy - 복사본/ChatDummy/Sector.cpp:26-36 | The session is appended in its sector, whether it was registered or not; everybody is then in the right list exactly if it was not registered or its old sector was outside the grid (body: Network.cpp:211-234) |
| `SectorIndexes.SectorIndex.Unregister` | Dummy/ChatDummyT/ChatDummy - 복사본/ChatDummy/Sector.cpp:38-54 | The session leaves all lists, the others stay; a session that never had a character was in none (body: main.cpp:1092-1106) |
| `SectorIndexes.AroundEqualsScan` | Dummy/ChatDummyT/ChatDummy - 복사본/ChatDummy/Sector.cpp:7-54 | The lists of the cells around a centre hold every registered session within one step exactly once and nobody else |
| `SectorIndexes.HearingIsMutual` | Dummy/ChatDummyT/ChatDummy - 복사본/ChatDummy/Sector.cpp:7-54 | Who hears whom through the index is symmetric, and is being within one step |
| `SectorIndexes.Audience` | Dummy/ChatDummyT/ChatDummy - 복사본/ChatDummy/Sector.cpp:7-24 | The chat loop reaches each listening session in the neighbourhood of the speaker exactly once, and never the speaker (body: main.cpp:1019-1040) |
| `SectorIndexes.EraseAtFirst` | Dummy/ChatDummyT/ChatDummy - 복사본/ChatDummy/Sector.cpp:46-50 | Erasing at the position found is erasing the first occurrence |
| `ServerSectors.ServerIndex.SyncSector` | ChatSingleServer/Sector/Sector.cpp:13-38 | True exactly if the player stood in the old cell; then everybody is in the cell of their position again; on false no list changed |
| `ServerSectors.ServerIndex.CheckSector` | ChatSingleServer/Sector/Sector.cpp:45-64 | True exactly if the player stands in the list of its cell |
| `ServerSectors.ServerIndex.MoveTo` | ChatSingleServer/Sector/Sector.cpp:6-38 | A move writes the position and synchronises only if the cell changed; the index stays right and the check made after it succeeds (body: ChatSingleServer/Player/Player.cpp:146-209) |
| `ServerSectors.ServerIndex.Enter` | ChatSingleServer/Sector/Sector.cpp:6-38 | A new player joins the index (body: ChatSingleServer/Player/Player.cpp:217-232) |
| `ServerSectors.ServerAndDummyAgree` | ChatSingleServer/Sector/Sector.cpp:13-38 | Over any run of moves on the map, the server's SyncSector and the client's Sector_UpdateSession keep the same players in every cell |
| `ServerSectors.OrdersDiffer` | ChatSingleServer/Sector/Sector.cpp:26-35 | But not the same order: a concrete case |
| `SectorMoves.StepInv` | Dummy/ChatDummyT/ChatDummy - 복사본/ChatDummy/Sector.cpp:26-75 | Every locked region, write and unlock of every thread keeps the index, the locks and the sessions consistent, unless, and only unless, it begins a join of a session that stands in a list |
| `SectorMoves.IndexRightExactlyIfSeparate` | Dummy/ChatDummyT/ChatDummy - 복사본/ChatDummy/Sector.cpp:26-36 | Over a whole run of all threads: every session is in its place at every point, if and only if no join meets a session that stands in a list (body: Network.cpp:211-234) |
| `SectorMoves.IndexRightInEveryRun` | Dummy/ChatDummyT/ChatDummy - 복사본/ChatDummy/Sector.cpp:26-75 | Then, after any interleaving, nobody is indexed twice, and a session not under way stands exactly in the list of its sector if it is registered, else in none |
| `SectorMoves.CreatedTwice` | Dummy/ChatDummyT/ChatDummy - 복사본/ChatDummy/Sector.cpp:26-36 | A run in which the character of a session is created twice: it stands in two lists, or twice in one, and after the session is closed still in one (body: Network.cpp:211-234) |
| `SectorMoves.OneLockPerThread` | Dummy/ChatDummyT/ChatDummy - 복사본/ChatDummy/Sector.cpp:31-51 | In every run two locked cells belong to two different threads |
| `SectorMoves.ListsChangeUnderLock` | Dummy/ChatDummyT/ChatDummy - 복사본/ChatDummy/Sector.cpp:31-51 | A list changes only in a step of the holder of that cell's lock |
| `SectorMoves.DestinationKept` | Dummy/ChatDummyT/ChatDummy - 복사본/ChatDummy/Sector.cpp:56-75 | Once a move or join has begun, no step of anybody changes the cell it ends in |
| `SectorMoves.MayBegin` | Dummy/ChatDummyT/ChatDummy - 복사본/ChatDummy/Sector.cpp:56-75 | A thread with nothing else under way may begin a join or a close of any of its sessions, and a move exactly of a registered one to another sector |
| `SectorMoves.Arrives` | Dummy/ChatDummyT/ChatDummy - 복사본/ChatDummy/Sector.cpp:26-75 | When the session is idle again after an operation, whatever the threads did meanwhile: a join or move has left it in the sector asked for, once in its list and in no other; a close in none |
| `SectorMoves.SomeoneCanGoOn` | Dummy/ChatDummyT/ChatDummy - 복사본/ChatDummy/Sector.cpp:31-51 | An unfinished operation can go on, or the holder of the lock it waits for can: no deadlock |
| `SectorMoves.StepsFinish` | Dummy/ChatDummyT/ChatDummy - 복사본/ChatDummy/Sector.cpp:56-75 | Each step shortens its own operation, which takes at most seven |
| `SectorLocks.LockOrder` | README.md:28-30 | The two locks of a move are ordered by X, then Y, and are those of the two cells (body: ChatMultiServer/Sector/Sector.cpp:88-131) |
| `SectorLocks.Candidates` | README.md:28-30 | The nested loops name exactly the cells within one step, in the same order (body: ChatMultiServer/Msg/Message.cpp:61-72) |
| `SectorLocks.StepInv` | README.md:28-30 | Every step of a move, join, login, broadcast or disconnect handler, also of a handler that runs inside a broadcast or login, keeps locks, lists and what broadcasts have sent consistent (body: ChatMultiServer/Sector/Sector.cpp:15-54) |
| `SectorLocks.IndexRightInEveryRun` | README.md:28-30 | After any interleaving nobody is in two lists, and a player with nothing in work stands exactly in the list of its sector if it has been placed, else in none (body: ChatMultiServer/Sector/Sector.cpp:15-54) |
| `SectorLocks.MayBegin` | README.md:28-30 | Which message starts an operation: exactly the player's status and the sector decide, and a move must change the sector (body: ChatMultiServer/Msg/Message.cpp:317-372) |
| `SectorLocks.MayDrop` | README.md:28-30 | Exactly when a broadcast or a login can run the disconnect handler of another session (body: ChatMultiServer/Msg/Message.cpp:99-103) |
| `SectorLocks.GoalKept` | README.md:28-30 | Only the start of an operation of its own, or of its handler, decides a player's sector, whether it is placed, and its key; no other step of any worker does (body: ChatMultiServer/Msg/Message.cpp:371-383) |
| `SectorLocks.Arrives` | README.md:28-30 | When the player has nothing in work again, whatever the workers did meanwhile: a move or first placing has left it once in the list of the sector asked for and not in that of the old one; a disconnect has left it in none; only a completed login has given it a key (body: ChatMultiServer/Msg/Message.cpp:371-383) |
| `SectorLocks.NeverStuck` | README.md:28-30 | The search of a move, a check or a removal finds the player every time, so the branch that returns with both locks held is unreachable (body: ChatMultiServer/Sector/Sector.cpp:36-42) |
| `SectorLocks.MissingOnlyUnderBothLocks` | README.md:28-30 | A placed player is out of the lists only between erase and append, while its worker holds both cells' locks, or at its first placing or final removal (body: ChatMultiServer/Sector/Sector.cpp:34-46) |
| `SectorLocks.ListedArePlaced` | README.md:28-30 | Whoever stands in a list has the status PLAYER, so that trap of the broadcast is unreachable (body: ChatMultiServer/Msg/Message.cpp:92-95) |
| `SectorLocks.BroadcastReaches` | README.md:28-30 | A broadcast that goes through up to nine lists one by one, while other workers go on, has at its end reached, once each, exactly the players who stand near the speaker at that moment and those whose disconnect handler it ran itself, who stand nowhere near (body: ChatMultiServer/Msg/Message.cpp:49-134) |
| `SectorLocks.SnapshotExactly` | README.md:28-30 | So it is a snapshot of one moment if and only if it ran no disconnect handler (body: ChatMultiServer/Msg/Message.cpp:99-103) |
| `SectorLocks.HadItsMoment` | README.md:28-30 | Whomever a finished broadcast has reached, it had reached at a moment of the run at which it had sent to all (body: ChatMultiServer/Msg/Message.cpp:49-134) |
| `SectorLocks.NobodyInTransitNear` | README.md:28-30 | At that moment nobody is on the way from or to a cell near the speaker (body: ChatMultiServer/Msg/Message.cpp:49-134) |
| `SectorAlone.MoveAlone` | README.md:28-30 | A move that nobody disturbs, from any state: out of the list of the old sector, at the end of the target's, all else and all locks as before (body: ChatMultiServer/Sector/Sector.cpp:15-46) |
| `SectorAlone.JoinAlone` | README.md:28-30 | A first placing that nobody disturbs: at the end of the list of the sector, with the status PLAYER (body: ChatMultiServer/Msg/Message.cpp:358-369) |
| `SectorAlone.LoginAlone` | README.md:28-30 | A login that nobody disturbs, for each way it can end: what the key table holds, and that only a completed one gives the player its key (body: ChatMultiServer/Msg/Message.cpp:281-300) |
| `SectorAlone.LeaveAlone` | ChatMultiServer/Player/CharacterKeyManager.cpp:32-51 | A disconnect of a placed player that nobody disturbs: out of the list, key deleted (body: ChatMultiServer/ContentsThread/ContentsFunc.cpp:142-185) |
| `SectorAlone.UnplacedLeaves` | ChatMultiServer/Player/CharacterKeyManager.cpp:32-51 | That of another leaves lists and key table as they are (body: ChatMultiServer/ContentsThread/ContentsFunc.cpp:153-163) |
| `SectorAlone.TakesOver` | ChatMultiServer/Player/CharacterKeyManager.cpp:6-30 | A login that takes a key over and runs the other session's handler inside: the other player is in no list, its key is gone, the key is the new player's |
| `SectorProgress.WaitsAbove` | README.md:28-30 | Whoever waits for a lock holds only locks of lower cells, except a handler inside a broadcast that waits for the key table and one inside a login that waits for a cell (body: ChatMultiServer/Sector/Sector.cpp:88-131) |
| `SectorProgress.KnotHasBoth` | ChatMultiServer/Player/CharacterKeyManager.cpp:8-17 | Workers that wait for one another include both of these |
| `SectorProgress.KnotForEver` | ChatMultiServer/Player/CharacterKeyManager.cpp:8-17 | Once some do, no continuation of the run frees them |
| `SectorProgress.KnotExactly` | ChatMultiServer/Player/CharacterKeyManager.cpp:8-17 | Workers wait for one another if and only if the key table is held by a login whose handler waits for a cell, and the chain of holders from that cell on leads to a broadcast whose handler waits for the key table |
| `SectorProgress.ServedExactlyUnlessCrossed` | README.md:28-30 | Every worker can go on, or waits along a chain of holders for one that can, if and only if the two lock orders are not crossed in that way (body: ChatMultiServer/Sector/Sector.cpp:88-131) |
| `SectorProgress.ProgressWithoutBoth` | README.md:28-30 | As long as one of the two kinds of waiting handler is missing, some worker can go on whenever work is left, although up to nine locks are held at a time (body: ChatMultiServer/Sector/Sector.cpp:88-131) |
| `SectorProgress.PlainRunsAreSafe` | README.md:28-30 | In runs in which no broadcast or login runs another session's handler there is no deadlock, and every broadcast is a snapshot of one moment (body: ChatMultiServer/Msg/Message.cpp:49-134) |
| `SectorProgress.StepsFinish` | README.md:28-30 | Every step brings its own operation nearer to its end and leaves the tasks of the others alone (body: ChatMultiServer/Sector/Sector.cpp:15-54) |
| `SectorTangle.NoSnapshot` | README.md:28-30 | A run from the empty server in which a broadcast reaches a player who stands in no list when it has sent to all (body: ChatMultiServer/Msg/Message.cpp:99-103) |
| `SectorTangle.TwoWaitForEver` | ChatMultiServer/Player/CharacterKeyManager.cpp:8-17 | A run from the empty server after which a broadcast's and a login's worker wait for each other, whatever happens later, and none of the four players' work goes on |
| `KeyTables.CharacterKeyManager.InsertID` | ChatMultiServer/Player/CharacterKeyManager.cpp:6-30 | Throws out exactly the session that held the key; refuses only a new key in a full table; the new table is stated |
| `KeyTables.CharacterKeyManager.DeleteID` | ChatMultiServer/Player/CharacterKeyManager.cpp:32-51 | Deletes the key whatever session asks; false exactly if it was missing |
| `KeyTables.InsertionIsExact` | ChatMultiServer/Player/CharacterKeyManager.cpp:6-30 | Accepted: the key maps to the new session, all other keys unchanged; refused: nothing changed; refused exactly if the key is new and the table full, so a take-over always succeeds |
| `KeyTables.EveryRun` | ChatMultiServer/Player/CharacterKeyManager.cpp:6-51 | Over every run of logins and departures, also repeated and failing logins, the table stays within the limit |
| `KeyTables.OwnedExactlyInProperRuns` | ChatMultiServer/Player/CharacterKeyManager.cpp:6-51 | Over a whole run no entry names a session that was told to go, if and only if every login the table accepts completes and is of a session not told to go before; whatever the departures |
| `KeyTables.RightUntilUnclean` | ChatMultiServer/Player/CharacterKeyManager.cpp:32-51 | A table that lists exactly the active sessions does so after a login or departure exactly if an accepted login is of that kind, and a departing session's handler deletes its own entry and no other (body: ChatMultiServer/ContentsThread/ContentsFunc.cpp:142-185) |
| `KeyTables.RightExactlyInCleanRuns` | ChatMultiServer/Player/CharacterKeyManager.cpp:32-51 | So over a whole run the table is right all the time if and only if every accepted login and every departure is of that kind (body: ChatMultiServer/ContentsThread/ContentsFunc.cpp:142-185) |
| `KeyTables.OnePerKeyExactly` | ChatMultiServer/Player/CharacterKeyManager.cpp:6-30 | Over a whole run no two active sessions have one key, if and only if every login that makes its session active finds the active session of its key, if there is one, in the table |
| `KeyTables.OneSessionPerKey` | ChatMultiServer/Player/CharacterKeyManager.cpp:6-30 | A right table means one active session per key |
| `KeyTables.AsManyAsEntries` | ChatMultiServer/Player/CharacterKeyManager.cpp:21-26 | And at most playerMaxCount active sessions |
| `KeyTables.LateDepartureBreaksIt` | ChatMultiServer/Player/CharacterKeyManager.cpp:32-51 | The handler of a session that was thrown out deletes its successor's entry: a run with limit 1 and two active sessions of one key (body: ChatMultiServer/ContentsThread/ContentsFunc.cpp:182) |
| `KeyTables.OneSessionFillsTheTable` | README.md:28-30 | A session may log in again after a login with a bad name, which keeps its key: the run in which one session fills the table although nobody is online (body: ChatMultiServer/Msg/Message.cpp:281-291) |
| `KeyTables.UnplacedDepartureKeepsThePlace` | ChatMultiServer/Player/CharacterKeyManager.cpp:32-51 | A session that leaves before it is placed keeps its key occupied: a run with limit 1 after which nobody else can log in (body: ChatMultiServer/ContentsThread/ContentsFunc.cpp:156-165) |
| `UserTables.CUserManager.InitUser` | LoginServer/User/User.cpp:22-38 | The slot of the id shows the session; all other slots are unchanged; the counter goes up |
| `UserTables.CUserManager.DeleteUser` | LoginServer/User/User.cpp:41-63 | True exactly if the slot still shows the session; only then it is emptied; the counter goes down either way |
| `UserTables.CountsAndSlots` | LoginServer/User/User.cpp:22-63 | Over every run of ids initialised once and deleted at most once: the counter is the number of outstanding sessions, and a slot shows an id exactly if it is the latest of its slot and outstanding |
| `UserTables.IndexIsTheTop` | LoginServer/User/User.cpp:22-26 | The slot of an id is its top 16 bits |
| `UserTables.StandsWithItsTime` | LoginServer/User/User.cpp:22-63 | As long as its slot is not given away, a session stands there with the time of its login; after its delete the slot is as at the start |
| `UserTables.LateDeleteSparesTheNewUser` | LoginServer/User/User.cpp:41-63 | A delete after the slot was given away fails and changes no slot |
| `UserTables.ShownAndDisplaced` | LoginServer/User/User.cpp:22-63 | The slots show fewer users than the counter by exactly the displaced ones |
| `RttStats.MonitoringDataStats.Add` | Dummy/ChatDummyT/ChatDummy - 복사본/ChatDummy/MonitoringDatas.h:15-25 | Extends the window; least and greatest stay those of all values since Reset |
| `RttStats.MonitoringDataStats.Reset` | Dummy/ChatDummyT/ChatDummy - 복사본/ChatDummy/MonitoringDatas.h:27-37 | Forgets window, least and greatest |
| `RttStats.MonitoringDataStats.GetSnapshot` | Dummy/ChatDummyT/ChatDummy - 복사본/ChatDummy/MonitoringDatas.h:39-50 | Reports least and greatest since Reset and the average of the window, which starts anew |
| `RttStats.AverageIsMean` | Dummy/ChatDummyT/ChatDummy - 복사본/ChatDummy/MonitoringDatas.h:45 | The reported average is the truncated mean exactly if the sum fits 32 bits and a float can hold the mean |
| `RttStats.SnapshotIsOrdered` | Dummy/ChatDummyT/ChatDummy - 복사본/ChatDummy/MonitoringDatas.h:43-45 | Under these two conditions it lies between least and greatest, although these may be older than the window |
| `RttStats.SmallIsRepresentable` | Dummy/ChatDummyT/ChatDummy - 복사본/ChatDummy/MonitoringDatas.h:45 | Every mean up to 2^24 in size can be held |
| `RttStats.RoundsToNearest` | Dummy/ChatDummyT/ChatDummy - 복사본/ChatDummy/MonitoringDatas.h:45 | The conversion to float takes the nearest number that has no ones below its 24 leading bits, half-way the one with an even last bit, and negative numbers as their opposites |
| `RttStats.LargestBecomesLeast` | Dummy/ChatDummyT/ChatDummy - 복사본/ChatDummy/MonitoringDatas.h:45 | One value is averaged to a negative number if and only if it is at least 2^31 - 64, and then to the least int |
| `RttStats.AverageBelowLeast` | Dummy/ChatDummyT/ChatDummy - 복사본/ChatDummy/MonitoringDatas.h:45 | With either one missing it need not: two concrete windows |
| `SessionRelease.StepInv` | NetWorkLib/NetworkManager/Network.h:8-11 | Every atomic step of accept, send, abort, I/O completion and release keeps the protocol's invariant (body: NetWorkLib/NetworkManager/NetWorkManager.cpp:500-910) |
| `SessionRelease.ReportedOnce` | NetWorkLib/pch.h:65-66 | In every interleaving the disconnect handler is called at most once for a session, and has been called exactly if the session left its slot or is being cleaned out (body: NetWorkLib/NetworkManager/NetWorkManager.cpp:581-598) |
| `SessionRelease.HeldSessionIsThere` | NetWorkLib/NetworkManager/Network.h:8-11 | Whoever raised ioCount, saw the flag open and compared the id works on the very session it asked for, until it lowers the count; with id 0, on whatever session was opened meanwhile (body: NetWorkLib/NetworkManager/NetWorkManager.cpp:512-527) |
| `SessionRelease.ProbeDecided` | NetWorkLib/NetworkManager/Network.h:8-11 | Anybody may ask any slot for any id; whatever the others do meanwhile, the caller gets to hold the session if and only if the slot was open when it read the flag and showed the id when it read the id; otherwise it is turned away (body: NetWorkLib/NetworkManager/NetWorkManager.cpp:512-527) |
| `SessionRelease.OpenSessionIsHeld` | NetWorkLib/NetworkManager/Network.h:8-11 | So asking an open slot for its id, undisturbed, ends in holding the session after two steps (body: NetWorkLib/NetworkManager/NetWorkManager.cpp:512-527) |
| `SessionRelease.ZeroIdPassesWhileOpening` | NetWorkLib/NetworkManager/Network.h:8-11 | Id 0, read from a cleared slot by the walk over all slots, passes both checks if and only if an accept is between opening the slot and writing its id (body: NetWorkLib/NetworkManager/NetWorkManager.cpp:753-778) |
| `SessionRelease.HandlerRunsAlone` | NetWorkLib/pch.h:65-66 | While a session's handler is due or running nobody works on that session (body: NetWorkLib/NetworkManager/NetWorkManager.cpp:581-598) |
| `SessionRelease.SharedExactlyWhenDrained` | NetWorkLib/NetworkManager/Network.h:8-11 | Over a whole run: no slot is ever given to two sessions if and only if every accept finds the stack's own counter above 0 (body: NetWorkLib/Session/Session.cpp:134-146) |
| `SessionRelease.IndexInOnePlace` | README.md:11 | Then each index is once on the stack, or with one activity that opens or closes the slot, or in use: none is shared or lost (body: NetWorkLib/Session/Session.cpp:96-101) |
| `SessionRelease.UnusedSessionIsClosed` | NetWorkLib/pch.h:65-66 | A session nobody uses is not forgotten: somebody is about to try the exchange, and it succeeds (body: NetWorkLib/NetworkManager/NetWorkManager.cpp:890-900) |
| `SessionRelease.PostedHolds` | NetWorkLib/NetworkManager/Network.h:8-11 | A socket operation a holder starts holds the same session and is counted (body: NetWorkLib/NetworkManager/NetWorkManager.cpp:882-889) |
| `SessionRelease.AcceptOpens` | NetWorkLib/NetworkManager/Network.h:8-11 | An accept takes the index on top, opens that slot with the next id and is its first holder (body: NetWorkLib/NetworkManager/NetWorkManager.cpp:255-300) |
| `SessionRelease.LastOneCloses` | NetWorkLib/NetworkManager/Network.h:8-11 | Whoever lowers the count of an open slot from 1, undisturbed, runs the handler with its id, clears the slot and puts its index on top of the stack, counted (body: NetWorkLib/NetworkManager/NetWorkManager.cpp:581-598) |
| `SessionRelease.ExchangeDecided` | NetWorkLib/NetworkManager/Network.h:8-11 | The exchange succeeds exactly on an open slot with count 0; otherwise it changes nothing and its caller is done (body: NetWorkLib/NetworkManager/NetWorkManager.cpp:581-587) |
| `SessionRelease.OthersStillHold` | NetWorkLib/NetworkManager/Network.h:8-11 | Lowering the count of a session others hold changes nothing else (body: NetWorkLib/NetworkManager/NetWorkManager.cpp:890-910) |
| `SessionRelease.StepsFinish` | NetWorkLib/NetworkManager/Network.h:8-11 | Every step brings its own activity nearer to its end, which takes at most nine (body: NetWorkLib/NetworkManager/NetWorkManager.cpp:500-910) |
| `SessionRelease.OthersKnow` | NetWorkLib/pch.h:65-66 | No step of one activity falsifies what another knows of the slot (body: NetWorkLib/NetworkManager/NetWorkManager.cpp:581-587) |
| `SessionRelease.NobodyWaits` | NetWorkLib/NetworkManager/Network.h:8-11 | An activity under way can always take its next step (body: NetWorkLib/NetworkManager/NetWorkManager.cpp:882-910) |
| `SessionIndices.IndicesFitExactly` | README.md:11-13 | Over a whole run: all indices handed out fit the slot array and none is given out twice, if and only if every admitted accept finds fewer indices taken than there are slots, and the stack's own counter above 0 (body: NetWorkLib/Session/Session.cpp:134-146) |
| `SessionIndices.IndicesFit` | README.md:11-13 | With w disconnects under way at an accept, from lowering the login counter until their index is counted on the stack, and enough indices, indices stay below limit + w - 1 and none is given out twice (body: NetWorkLib/Session/Session.cpp:134-146) |
| `SessionIndices.OneOverlapIsSafe` | README.md:11-13 | With at most one, and as many indices as slots, every accept finds an index of a slot of its own (body: NetWorkLib/Session/Session.cpp:134-146) |
| `SessionIndices.IndexOutsideTheArray` | README.md:11-13 | With two it need not: a run in which a server of two slots hands out index 2 (body: NetWorkLib/Session/Session.cpp:134-146) |
| `SessionIndices.CounterLags` | README.md:11 | Nor if one of the two has pushed its index and not counted it: a run in which a server of three slots gives slot 0 to a second session although the stack is not empty (body: NetWorkLib/Buffer/TLSPool.h:184-211) |
| `SessionIndices.EmptyStackSharesZero` | README.md:11-13 | With a limit above the number of indices, as the default limit is, accepts alone give slot 0 to two sessions: the run (body: NetWorkLib/Session/Session.cpp:54-61) |
| `SessionIndices.AdmittedExactly` | README.md:11-13 | A session is admitted exactly if connected sessions and all refusals so far leave room (body: NetWorkLib/NetworkManager/NetWorkManager.cpp:230-235) |
| `SessionIndices.RefusalsAreNeverForgotten` | README.md:11-13 | So one refusal can close an empty server for good: a concrete run (body: NetWorkLib/NetworkManager/NetWorkManager.cpp:230-235) |
| `SessionIndices.DisconnectAlone` | README.md:11-13 | A disconnect gives back one place of the login counter and puts its index on the stack, counted (body: NetWorkLib/Session/Session.cpp:96-101) |
| `SessionIndices.FirstUse` | README.md:11-13 | A never used index comes off the stack only when all lower ones are taken (body: NetWorkLib/Session/Session.cpp:54-61) |
| `LockFreeStack.StepInv` | README.md:11 | Every step of every thread keeps memory, abstract stack and push numbers in agreement while successful pops are in time (body: NetWorkLib/Buffer/TLSPool.h:45-100) |
| `LockFreeStack.HoldsExactlyIfFits` | README.md:11 | Over a whole run: following _next from the top meets exactly the nodes pushed and not popped at every point, if and only if every successful pop still finds behind its node the node it read there (body: NetWorkLib/Buffer/TLSPool.h:45-100) |
| `LockFreeStack.TimelyRunsFit` | README.md:11 | They do when each comes before 2^17 pushes were counted since the one it saw (body: NetWorkLib/Buffer/TLSPool.h:45-100) |
| `LockFreeStack.MemoryHoldsTheStack` | README.md:11 | After any such interleaving one meets, from the top on, those nodes, latest first, and then the end, and nothing else (body: NetWorkLib/Buffer/TLSPool.h:45-100) |
| `LockFreeStack.LastInFirstOut` | README.md:11 | Whatever nodes one meets in memory: a successful push puts its node in front of them, a successful pop hands out the first and leaves the others (body: NetWorkLib/Buffer/TLSPool.h:45-100) |
| `LockFreeStack.NodeInOnePlace` | README.md:11 | A node is with one user, or once on the stack, or being pushed by one thread (body: NetWorkLib/Buffer/TLSPool.h:45-100) |
| `LockFreeStack.StaleTakeMeansWrap` | README.md:11 | A pop that succeeds on another push than it saw does so only when at least 0x20000 pushes were counted since that one (body: NetWorkLib/Buffer/TLSPool.h:84-96) |
| `LockFreeStack.PushAlone` | README.md:11 | A push that nobody disturbs: next number, link to what was on top, and the node on top with the low 17 bits of the number (body: NetWorkLib/Buffer/TLSPool.h:45-66) |
| `LockFreeStack.PopAlone` | README.md:11 | A pop that nobody disturbs hands out the node on top, and what was behind it is on top (body: NetWorkLib/Buffer/TLSPool.h:68-100) |
| `LockFreeStack.FailedExchange` | README.md:11 | An exchange that finds another word than it saw changes nothing; the push goes on with node and number (body: NetWorkLib/Buffer/TLSPool.h:57-66) |
| `LockFreeStack.StepsFinish` | README.md:11 | Every step brings its own push or pop nearer to its end, which takes three at most if nobody disturbs (body: NetWorkLib/Buffer/TLSPool.h:45-100) |
| `LockFreeStack.Begins` | README.md:11 | A push of any node somebody has can begin at any time, a pop if a node is on the stack; a new node is made exactly if none is (body: NetWorkLib/Buffer/TLSPool.h:68-80) |
| `LockFreeStack.OneNodeTwice` | README.md:11 | With exactly 2^17 it happens, and does not fit: a run from the empty stack that puts a node somebody has back on top (body: NetWorkLib/Buffer/TLSPool.h:45-100) |
| `LockFreeQueue.StepInv` | README.md:11 | Every step of every thread, and of other queues of the same pool on freed nodes, keeps list, tail, size and what threads have read consistent while no link goes to a node off the chain and no word is taken for an earlier one (body: NetWorkLib/Buffer/LFreeQ.h:121-362) |
| `LockFreeQueue.FirstInFirstOut` | README.md:11 | In every such interleaving the values handed out, followed by those found in memory from the head on, are the values linked, in order (body: NetWorkLib/Buffer/LFreeQ.h:121-362) |
| `LockFreeQueue.FifoExactlyIfStraight` | README.md:11 | Over a whole run in which no word is taken for an earlier one: this holds at every point if and only if no link goes to a node off the chain (body: NetWorkLib/Buffer/LFreeQ.h:121-362) |
| `LockFreeQueue.AppendsExactlyOnTheChain` | README.md:11 | The linking exchange appends its value to what is found in memory from the head on if and only if the node it links to is on the chain (body: NetWorkLib/Buffer/LFreeQ.h:200-207) |
| `LockFreeQueue.AppendsItsValue` | README.md:11 | And that is the value the enqueue was called with, however often it began anew (body: NetWorkLib/Buffer/LFreeQ.h:121-207) |
| `LockFreeQueue.AstrayMeansReused` | README.md:11 | Otherwise that node has been dequeued, freed and taken by another enqueue that has not linked it yet (body: NetWorkLib/Buffer/LFreeQ.h:200-207) |
| `LockFreeQueue.OneThreadOvertakesItself` | README.md:11 | A run in which this happens: one thread's second value comes out before its first, and the size counts an element nobody can reach (body: NetWorkLib/Buffer/LFreeQ.h:121-240) |
| `LockFreeQueue.StaleMeansWrap` | README.md:11 | A word is taken for an earlier one only if their numbers are at least 2^17 apart (body: NetWorkLib/Buffer/LFreeQ.h:97-107) |
| `LockFreeQueue.OneValueTwice` | README.md:11 | A run in which that happens: a value is handed out twice, and another never (body: NetWorkLib/Buffer/LFreeQ.h:328-356) |
| `LockFreeQueue.ReservedIsThere` | README.md:11 | Whoever lowered the size without finding it negative will find an element (body: NetWorkLib/Buffer/LFreeQ.h:265-272) |
| `LockFreeQueue.EmptyReportedExactly` | README.md:11 | A dequeue reports empty exactly if every element is spoken for, which can be the case in a nonempty queue (body: NetWorkLib/Buffer/LFreeQ.h:265-272) |
| `LockFreeQueue.DequeueSucceedsAlone` | README.md:11 | An undisturbed dequeue hands out the first element (body: NetWorkLib/Buffer/LFreeQ.h:279-356) |
| `LockFreeQueue.EmptyDequeueAlone` | README.md:11 | A dequeue that reports empty, undisturbed, leaves everything as it was (body: NetWorkLib/Buffer/LFreeQ.h:265-272) |
| `LockFreeQueue.StepsFinish` | README.md:11 | Every step brings its own call nearer to its end: left alone, whatever it read before, it ends in at most eleven steps and five for each node the tail is behind (body: NetWorkLib/Buffer/LFreeQ.h:121-362) |
| `LockFreeQueue.Begins` | README.md:11 | A dequeue can begin at any time, an enqueue with any new or freed node; only freed nodes are written by others (body: NetWorkLib/Buffer/LFreeQ.h:121-135) |
| `LockFreeQueue.TailIsAhead` | README.md:11 | The order of the reads guarantees that the head never overtakes the tail (body: NetWorkLib/Buffer/LFreeQ.h:284-326) |

## Left out

- Sockets, I/O completion ports, Redis, MySQL, timers, logging, profiling, crash dumps and configuration: foreign calls. What recv brings and the clock shows are parameters; `DisconnectSession` is an entry in a log.
- GameEchoServer, MonitoringServer, DummyClient, the monitor and player managers, the random strings: thin wrappers, commented-out functions, or handoffs whose other half is not part of this model.
- Message handlers beyond their effect on sectors, keys and slots: they copy fields and count statistics.
- RingBuffers.RingBuffer.constructor: sizes are not negative, as `new char[size]` demands.
- RingBufferRuns.Replay: positions are unbounded integers; `ArithmeticFits` says for which sizes 32 bits give the same results.
- RingBuffers.RingBuffer.Dequeue: the target is another array than the buffer's own store; the same for `Peek`.
- SocketHandlers.NetProcRecv: the dispatcher is a function from payload to verdict, without effects on the session; receive queues hold at most 1400 bytes (the program's hold 999), because a longer packet would overrun the packet buffer it is copied into.
- PacketMakers.MakeLocalChat: buffers are at least as long as the network header, because the checksum is stored without a check; the same for the other builders.
- PacketBuffers: of the `<<` operators only those for a byte and an int, and none of `>>`: the others are the same code for other widths.
- SectorIndexes.SectorIndex.UpdateSession: sequential; its locks and interleavings are in `SectorMoves`.
- SectorIndexes.Audience: the chat loop reads the lists without their locks while other threads change them; only the undisturbed reading is modelled.
- SectorMoves: each session is worked on by one thread, the one whose index range holds it. Reading and writing `CurSector` are single steps.
- ServerSectors.ServerIndex.SyncSector: both cells exist, as the array accesses demand; the same for `CheckSector`, whose body is compiled in debug builds only.
- SectorLocks: each player has one message or its disconnect in work at a time, and a worker is named after that player. Writing the new sector and starting an operation is one step. Which logins fail, and which sends and logins lower a last count, is left open: any that can may. The packets are not modelled.
- KeyTables: each call is one step, as its lock makes it; the name check that follows belongs to the same step. Session ids are not used again. Disconnects for other reasons show only as departures.
- UserTables: `GetUser`, whose guard admits one index too many; nothing is claimed beyond the array. The time stamps are stored and not read.
- RttStats.MonitoringDataStats.GetSnapshot: one step, although the code writes under a shared lock; the window holds fewer than 2^31 values, so the counter does not overflow; a float outside the int range converts to the least int.
- SessionRelease: session ids do not wrap at 48 bits, and id and index are written in one step. That every count is lowered some day is not claimed: a receive that fails to start keeps its count.
- SessionIndices: `ConnectServer`, which gives its count back when refused. An accept looks at the stack's counter, pops and lowers the counter in one step: only the accept thread pops, so the push of another thread in between is as good as one before.
- LockFreeStack: memory is sequentially consistent. The pop looks at the top at once; the size counter it looks at first is in `SessionIndices`. The per-thread caches in front of the pools are ordinary lists of one thread.
- LockFreeQueue: memory is sequentially consistent, and a freed node is available at once; `PeekFront` and `Clear`. A thread may have drawn the number of the word it installs at any earlier time, so runs with a chosen number stand for longer ones in which the counter got there.
