# Verified models of the bank, the Chord ring and the key-value store

Dafny models of the repository's three distributed programs and of the message framing two of them
share. Use `dafny verify dfyconfig.toml` to verify them all.

**Bank** (`Bank*.dfy`). Branches send each other money over a full mesh of FIFO channels while a controller
takes global snapshots by flooding markers. `Snapshots`, `Branches` and `Controllers` hold the classes of
the program; each handler is proved equal to a function on the branch's state. `Network` runs those
functions over n branches and any schedule of sends, deliveries and snapshot rounds, with 64-bit
arithmetic. `Transfers` is the money alone, as possible lists of payments and receipts. `Cut` keeps, for
every reachable state, a re-ordering of the run in which everything a branch did before it recorded comes
first; `SnapshotResults` and `SnapshotProgress` draw the conclusions: the recorded global state is one the
re-ordered run passes through, it adds up to the controller's total, and each round takes exactly
n(n - 1) markers; `SnapshotTermination` that deliveries alone, in any order, end it after a number known
beforehand. `Mesh` shows the dialling arithmetic builds the mesh the
snapshots rely on.

**Chord** (`Chord*.dfy`). `Hex` proves that string addition, truncation and comparison are arithmetic
modulo 16^k; `TableBuilder` runs the installation script's search and table construction on strings;
`LocalNodes` is the node class on strings, proved to take the same steps as the lookup on numbers in
`Lookup`. On numbers: which lookups end and where (`Lookup`), which fingers the script gets right and when
the installed ring is right (`Tables`), how many forwards a lookup takes (`Hops`, `BuiltHops`), and what
happens to keys that are node identifiers (`NodeKeys`, `NodeLookups`). `RingProgram` puts the pieces together: node objects
installed by the script's main loop answer a request within two forwards more than an identifier has bits.
`RingExamples` has small rings that fall short. Identifier length is a parameter; the program uses
64 hexadecimal digits, 256 bits.

**Key-value store** (`Kv*.dfy`). `Logs` is the append-only log file, `Replicas` the 256 slots with the strand
on which writes wait to be logged, `Coordinators` the message handlers. `ReadRepair` is one round of read
repair, `RepairTimes`, `RepairValues` and `RepairAtZero` say exactly when it brings all replicas to one
timestamp and to one value. `Handoffs` is a coordinator with its peers under message loss; `Acknowledgements`,
`Answerable`, `HintCounters` and `HandoffDelivery` prove what replies, hints, the hint log and handoffs guarantee,
`Provenance` that no record comes out of nowhere.

**Framing** (`Framing.dfy`). The 8-byte big-endian header, the sender's queue and the receiver's reads.

Results worth knowing before changing the code:

- A finger whose target does not lie above the first identifier of the list is one node too far, because
  the binary search never looks at index 0 (`FingerIsSuccessorIff`; on nodes 3, 10, 12 of 16 positions,
  `WrongFinger`). The ring's pointers are still right unless a node sits at the last position of the circle
  (`InstallationIff`, `LastPosition`).
- A lookup never ends when some node forwards the key to itself, which `id_between` allows for wrapping
  keys; on the tables the script builds this shows in a node's last table entry (`InstalledRingFindsIff`;
  key 1 from node 10 on that ring, `LookupStays`).
- A lookup of a key that is a node identifier ends only at the ends of the list (`NodeKeyLookupsEndIff`). A
  predecessor request for the greatest identifier always ends, at the greatest node itself. A successor request
  for it ends, at the least node, when the greatest node's last table entry is the least node, which on an
  installed ring means the lower half of the circle (`InstalledGreatestIff`; key 12 on that ring,
  `GreatestKeyStays`). Requests for the least identifier need that nobody forwards it to itself and, for the
  predecessor, that the climb from the least node reaches the greatest (key 1 on nodes 1, 4, 9, 10,
  `LeastKeyStays`). No request for any other node identifier ends (key 10 on the first ring, `NodeKeyStays`).
- A reconnect hands nothing over for a put that still waits on the coordinator's strand (`HandoffCoversIff`,
  `WaitingPutIsMissed`).
- A read repair can miss the greatest timestamp when the coordinator's newest write is still waiting for the
  log, or nobody's slot has it yet (`ConvergesIff`, `WaitingWriteIsMissed`).
- Read repair never reconciles two values that carry the same timestamp (`SameValueIff`, `TiesStay`).
- Replay hands over a record that was cut short within its body (`ReplayOfCutLog`).

Assumptions of the models. Handlers run one at a time, in the order messages arrive. Every branch has
handled InitBranch before the first transfer, and the controller's rounds do not overlap. Amounts are any
numbers up to the balance. Node identifiers are distinct digests. Put uuids are distinct. Timestamps are
natural numbers. Message bodies are opaque bytes; decoding an encoded body gives it back.

## Model

| member | source | states |
|---|---|---|
| Snapshots.Snapshot.constructor | bank/src/snapshot.cpp:10-15 | a new snapshot holds id and balance and records every peer's channel from zero |
| Snapshots.Snapshot.RecordTransfer | bank/src/snapshot.cpp:19-32 | a transfer is added, with 64-bit wrap-around, only while its channel is recording; otherwise nothing changes |
| Snapshots.Snapshot.Marker | bank/src/snapshot.cpp:34-45 | a marker closes its channel at the amount recorded; a second one, or one from a stranger, does nothing |
| Snapshots.Snapshot.ToMessage | bank/src/snapshot.cpp:47-59 | the message is produced exactly when every channel is closed, with every channel's amount; otherwise it throws |
| Branches.Branch.SendMoney | bank/src/branch.cpp:26-62 | whatever credits and spurious failures interleave with the exchange, a send takes exactly the amount it queues off the balance credited so far and never overdraws; otherwise nothing is taken; and an attempt is repeated only when it drew more than was read, failed spuriously or met a changed balance |
| Branches.Branch.InitBranchHandler | bank/src/branch.cpp:80-124 | takes the balance; fails exactly when neither the list nor an earlier one holds this branch; otherwise one entry of this branch is taken out and the branches dialled are the next ones along the list, cyclically, as many as the mesh arithmetic says |
| Branches.Branch.InitSnapshotHandler | bank/src/branch.cpp:126-140 | replaces the snapshot by a new one of the current balance and puts the marker at the end of every channel |
| Branches.Branch.MarkerHandler | bank/src/branch.cpp:142-158 | an unknown id starts a snapshot and puts a marker at the end of every channel before the one it came by is closed; a known id only closes the channel |
| Branches.Branch.Flood | bank/src/branch.cpp:136-138 | every channel, whatever it holds, gets exactly one marker of the id, last |
| Branches.Branch.TransferHandler | bank/src/branch.cpp:176-181 | credits the balance and lets the snapshot record the amount |
| Branches.Branch.RetrieveSnapshotHandler | bank/src/branch.cpp:160-172 | which of reply, silence, exception and null access follows, for each state; the reply's contents |
| Controllers.Controller.InitBranches | bank/src/controller.cpp:53-77 | every branch is told the same share and list; the undealt rest is less than one unit per branch |
| Controllers.Controller.DoSnapshot | bank/src/controller.cpp:79-97 | the id grows by one and exactly the drawn branch is asked to start |
| Controllers.Controller.DoRetrieveSnapshot | bank/src/controller.cpp:99-114 | every branch is asked for the current id, once |
| Network.FloodIsFlooded | bank/src/branch.cpp:136-138 | in the runs too a branch that floods sends one marker on each of its own channels and none on any other |
| Network.SendIsSent | bank/src/branch.cpp:44-53 | any amount up to the balance can be paid into any channel and goes on that one alone |
| Mesh.DialsAre | bank/src/branch.cpp:97-122 | the branches dialled are the next ones along the list, cyclically, as many as the arithmetic says |
| Mesh.FullMesh | bank/src/branch.cpp:97-122 | of two distinct branches exactly one dials the other; none dials itself |
| Mesh.MeshMatchesPeers | bank/src/branch.cpp:97-122 | after the hellos the channels of every branch are exactly the peers its snapshots record |
| Mesh.NoDoubleConnection | bank/src/branch.cpp:97-101 | every branch has exactly n - 1 channels: whom it dials and who dials it are disjoint |
| Transfers.Diamond | bank/src/branch.cpp:126-158 | two moves of different branches that are both possible can be done in either order, with the same result: the step of the re-ordering argument |
| Transfers.PlayConserves | bank/src/branch.cpp:37-53 | no list of payments and receipts changes the sum of balances and amounts in transit |
| ChannelCut.TransferSent | bank/src/branch.cpp:44-53 | a send keeps the per-channel law between the queue on each side of the marker, both ends' recordings and the cut |
| ChannelCut.TransferReceived | bank/src/branch.cpp:176-181 | a receipt keeps that law, whether it is counted in the balance, in the channel or not at all |
| ChannelCut.MarkerReceived | bank/src/branch.cpp:142-158 | a marker finds its channel recording exactly the counted amounts and closes it |
| ChannelCut.SenderRecords | bank/src/branch.cpp:131-139 | a sender that records puts its marker behind everything that counts |
| ChannelCut.ReceiverRecords | bank/src/snapshot.cpp:10-15 | a receiver that records starts counting from nothing what is still under way |
| ChannelCut.NewRound | bank/src/branch.cpp:126-140 | the law is set up afresh by a new round |
| Cut.StepKeeps | bank/src/branch.cpp:126-158 | every enabled event keeps the invariant: the moves made before recording, played alone, give the cut, the others then lead to the present |
| Cut.RunKeeps | bank/src/branch.cpp:126-158 | so does every run |
| Cut.NoOverflow | bank/src/branch.cpp:176-181 | no credit and no recording of a transfer under way can wrap, at any reachable state |
| SnapshotResults.MoneyConserved | bank/src/branch.cpp:37-53 | at every reachable state balances plus transfers under way add up to what was dealt out, and nothing wraps |
| SnapshotResults.ShareFits | bank/src/controller.cpp:56 | an even split of a 64-bit balance does not exceed it |
| SnapshotResults.SortKeepsBranchOrder | bank/src/branch.cpp:126-158 | the re-ordered run has each branch's own moves in their order |
| SnapshotResults.RoundFollowsMoves | bank/src/branch.cpp:126-140 | all moves made before a round began come first in the part sorted to the front |
| SnapshotResults.SnapshotIsReachable | bank/src/branch.cpp:126-181 | in every run in which a snapshot completes, what it reports is a state the re-ordered run passes through, between the beginning of the round and the present, with the moves made before recording in front |
| SnapshotResults.SnapshotTotal | bank/src/controller.cpp:53-77 | the reported balances and channel amounts add up to n(B / n) |
| SnapshotResults.ChannelIsFifo | bank/src/channel.cpp:15-27 | after any moves a channel holds what was paid in less a front part as long as what was taken |
| SnapshotResults.ConsistentCut | bank/src/branch.cpp:126-158 | at every reachable state: recorded plus queued ahead of the marker equals sent before the sender recorded less received before the receiver recorded |
| SnapshotProgress.TallyKeeps | bank/src/branch.cpp:126-158 | at every moment of a round the markers sent and consumed and the branches that recorded are counted exactly |
| SnapshotProgress.DoneIffOver | bank/src/snapshot.cpp:47-59 | every branch has recorded and no marker is under way if and only if every channel everywhere is closed, so that no message throws |
| SnapshotProgress.MarkersOfARound | bank/src/branch.cpp:126-158 | a finished round sent and consumed exactly n(n - 1) markers and recorded each branch exactly once |
| SnapshotProgress.MarkersDecrease | bank/src/snapshot.cpp:34-45 | each marker delivered closes exactly one channel still open |
| SnapshotProgress.EveryRoundCanFinish | bank/src/branch.cpp:142-158 | any run that has begun a round can be continued by deliveries alone to a finished snapshot |
| SnapshotProgress.AlwaysAnotherSnapshot | bank/src/controller.cpp:79-97 | from every reachable state any branch can be asked for one more snapshot, before and after which deliveries alone bring the rounds to their ends |
| SnapshotTermination.DeliveryCounts | bank/src/branch.cpp:142-181 | each delivery, of a transfer or a marker, leaves exactly one less to deliver, the markers still to be sent included |
| SnapshotTermination.EveryDeliveryRunFinishes | bank/src/branch.cpp:142-158 | every continuation of a begun round by deliveries alone has at most as many as are pending; nothing is left to deliver exactly after that many, and then the snapshot is done |
| SnapshotProgress.DoneIsCurrent | bank/src/controller.cpp:79-97 | snapshots that are all complete under one id carry the current round's |
| Frames.ValueOfBigEndian | kv/net/messaging/include/message.hpp:25-33 | decoding an encoded size gives it back, for every size of 8 bytes |
| Frames.BigEndianOfValue | kv/net/messaging/include/message.hpp:25-33 | encoding a decoded header gives its bytes back |
| Frames.UniqueFraming | bank/src/channel.cpp:66-94 | a byte stream begins with at most one sequence of messages: frames that begin a stream of frames are its first ones |
| Frames.Header.Encode | kv/net/messaging/include/message.hpp:30-33 | the header is eight bytes, byte i being the size divided by 256^(7 - i), modulo 256 |
| Frames.Header.SetBodySize | kv/net/messaging/include/message.hpp:20-23 | size and header bytes are updated together, the bytes as for Encode |
| Frames.Header.Decode | bank/src/message.cpp:12-15 | the size decoded is the one whose encoding the header holds |
| Frames.BigEndianBytes | kv/net/messaging/include/message.hpp:30-33 | each byte of an encoding by place and value, for any number of bytes |
| Frames.EightBytes | bank/include/message.hpp:9 | eight bytes hold exactly the sizes below 2^64 |
| Channels.Sender.Send | bank/src/channel.cpp:15-27 | a message is queued, and written at once exactly when nothing was queued |
| Channels.Sender.WriteCompleted | bank/src/channel.cpp:45-64 | a completed write starts the next; at most one is ever outstanding and the wire holds the frames of the messages in order |
| Channels.Receiver.Arrive | bank/src/channel.cpp:66-94 | for any split of the stream: what came is the frames handled followed by less than the next read needs |
| Channels.ReceiverHandlesPrefix | bank/src/channel.cpp:45-94 | the messages handled are always a prefix of those sent, and as long as the bytes that came allow |
| Logs.Log.WriteUpdate | kv/server/include/log.hpp:43-53 | a record is appended as one frame and nothing else changes |
| Logs.Log.ReadBody | kv/server/include/log.hpp:76-80 | as much of the body as the file has left is read to the front of the buffer, which grows, zero-filled, when the body does not fit; the rest of it stays as it was |
| Logs.Log.ReadRecord | kv/server/include/log.hpp:72-84 | one turn hands over one body and leaves the rest of the file to the next, unless the body was short |
| Logs.Log.ReplayLog | kv/server/include/log.hpp:60-86 | the bodies handed over, with the growing buffer and the moving position, are those of the specification of replay |
| Logs.ReplayOfRecords | kv/server/include/log.hpp:60-86 | whole records are handed over in order, whatever the buffer still holds |
| Logs.ReplayOfWholeLog | kv/server/include/log.hpp:60-86 | a log that was never cut replays to exactly the records written |
| Logs.ReplayOfTorn | kv/server/include/log.hpp:72-84 | a torn record is handed over at its full size, what is missing being stale bytes of the buffer or zeros |
| Logs.ReplayOfCutLog | kv/server/include/log.hpp:72-84 | a log cut short replays to exactly its whole records if and only if less than a header of the last one is left; otherwise the torn record is handed over too |
| Hex.LessIsNumeric | chord/init:303 | on strings of one length the character order is the numeric order and equal numbers mean equal strings |
| Hex.LessIsLexicographic | chord/include/chord.h:100-104 | one string is less than another if and only if, where they first differ, it ends or has the smaller character |
| Hex.DigitsInOrder | chord/init:264-266 | the sixteen digits are the characters 0 to 9 and a to f, in this order |
| Hex.HsAdd | chord/init:268-289 | for all hexadecimal strings, of unequal lengths and with carry-out, the result denotes the exact sum and is longer than both exactly when the sum needs it |
| Hex.LastDigits | chord/init:314 | keeping the last k digits is reduction modulo 16^k |
| Ring.BetweenIsClockwise | chord/include/chord.h:100-104 | on pairwise distinct identifiers the test is clockwise betweenness |
| Ring.BetweenAtTheEnds | chord/include/chord.h:100-104 | the ends belong to the interval exactly when it wraps or is the whole circle |
| TableBuilder.Bs | chord/init:299-305 | the search ends, above its lower bound and not above its upper bound |
| TableBuilder.BsSplits | chord/init:299-305 | on a sorted list everything strictly between the lower bound and the result is below the key, the result is not |
| TableBuilder.BsIsLeast | chord/init:299-305 | it finds the least index from 1 on whose identifier is not below the key, or the length |
| TableBuilder.AddendDenotes | chord/init:309-313 | the digit list for place i and bit j denotes 2^(4i + j) |
| TableBuilder.TargetIsOnCircle | chord/init:309-314 | the target of a finger is the node's identifier plus a power of two, modulo 16^d for d digits |
| TableBuilder.FindFinger | chord/init:314-321 | add, cut, search and wrap find the finger of the ring arithmetic |
| TableBuilder.CreateFing | chord/init:307-324 | the table built on strings is, read as numbers, the table of targets id + 2^m modulo the circle, and every entry is a listed node |
| LocalNodes.IdBetweenIsBetween | chord/include/chord.h:100-104 | on digests the string test is the numeric test |
| LocalNodes.IdBetweenIsClockwise | chord/include/chord.h:100-104 | on distinct digests the string test is clockwise betweenness modulo 16^64 |
| LocalNodes.LocalNode.SetFingertable | chord/include/chord.h:25-34 | every identifier is recomputed from the address; the first finger is to be told of this node; digests already right are kept |
| LocalNodes.LocalNode.SetPredecessor | chord/include/chord.h:37-39 | only the predecessor changes |
| LocalNodes.LocalNode.IsSuccessor | chord/include/chord.h:41-48 | the answer, and the exception without predecessor |
| LocalNodes.LocalNode.IsPredecessor | chord/include/chord.h:50-57 | the answer, and the exception without table |
| LocalNodes.LocalNode.ClosestPrecedingNode | chord/include/chord.h:106-114 | the last finger between the node and the key, or the first finger; on digests the one of the numeric lookup |
| LocalNodes.LocalNode.FindSuccessor | chord/include/chord.h:59-71 | answers, forwards or throws as stated, on any strings; on digests exactly the numeric lookup's step |
| LocalNodes.LocalNode.FindPredecessor | chord/include/chord.h:73-85 | the same for predecessors |
| LocalNodes.LocalNode.GetSuccessor | chord/include/chord.h:87-94 | the first finger, or the exception |
| Lookup.AnswersIfTarget | chord/include/chord.h:41-57 | on a ring whose pointers are right a node answers a key exactly when it is the key's unique successor (or predecessor), answers with itself, and nobody throws |
| Lookup.TargetIsUnique | chord/include/chord.h:59-85 | there is only one node to end at |
| Lookup.ForwardIsNearer | chord/include/chord.h:106-114 | a forward stays put, or comes strictly nearer clockwise, or is the last one, to the key's owner |
| Lookup.LookupsEndIff | chord/include/chord.h:59-85 | every lookup of a key ends, and at the right node, if and only if no node forwards that key to itself |
| Lookup.SelfForwardsIff | chord/include/chord.h:100-114 | a node forwards a key to itself exactly when it is not the node looked for, the key wraps and its last usable finger is itself |
| Tables.FingerIsSuccessorIff | chord/init:299-321 | a finger is the ring successor of its target if and only if the target lies above the first identifier or there is one node; otherwise it is the second node of the list |
| Tables.FirstFingerIff | chord/init:307-324 | a first finger is the ring successor if and only if the node is not at the last position, or is alone |
| Tables.InstallationIsRight | chord/include/chord.h:25-39 | after every node received its table, in any order, every first finger and predecessor is the ring's |
| Tables.InstallationIff | chord/init:343-348 | the ring's pointers are right after installation if and only if no node is at the last position, or there is one node |
| Hops.Chain | chord/include/chord.h:59-85 | if every forward clears the top bit of what is left, up to some extra forwards, bits plus extras plus one suffice |
| Hops.TrueTablesHopBound | chord/include/chord.h:106-114 | with every finger the ring successor of its target, at most one forward per bit and one to the owner |
| BuiltHops.BuiltHopBound | chord/init:299-324 | on the tables the script builds, at most one forward more, and only if the first node's fingers wrap |
| BuiltHops.InstalledRingFindsIff | chord/init:343-348 | on the ring as installed, in any order, every lookup of a key ends at the right node within the bound if and only if no node above the key, other than the one looked for, has itself as its last table entry |
| NodeKeys.NodeKeyAnswers | chord/include/chord.h:100-104 | a node answers a key that is a node identifier exactly when its arc wraps and ends in the key |
| NodeKeys.NodeKeyAnsweredIff | chord/include/chord.h:41-57 | some node would answer such a key, if it were asked, if and only if it is the least or the greatest identifier |
| NodeKeys.NodeKeyNeverFound | chord/include/chord.h:59-85 | a lookup of any other one is forwarded for ever, from any node |
| NodeKeys.MiddleKeyNeverFound | chord/init:343-348 | so it is on an installed ring for every identifier but the first and the last of the list |
| NodeLookups.GreatestEndsIff | chord/include/chord.h:59-85 | a lookup of the greatest identifier from p ends if and only if it asks for the predecessor, starts at the least node, or the greatest node's last table entry is the least node |
| NodeLookups.LeastEndsIff | chord/include/chord.h:59-85 | every lookup of the least identifier ends if and only if no node forwards it to itself and, for the predecessor, the climb from the least node comes to the greatest |
| NodeLookups.NodeKeyLookupsEndIff | chord/include/chord.h:59-85 | for every node identifier: every lookup of it ends if and only if the tables lead there, the least node answering successor requests and the greatest predecessor requests |
| NodeLookups.FoundIsAnswerer | chord/include/chord.h:41-57 | no other node is ever the answer |
| NodeLookups.GreatestEntry | chord/init:307-324 | in a built table the greatest node's last entry is the least node if and only if it lies in the lower half of the circle |
| NodeLookups.InstalledGreatestIff | chord/init:343-348 | on an installed ring every successor request for the greatest identifier ends if and only if that is so, or there is one node |
| RingProgram.HandOver | chord/include/chord.h:25-39 | handing a table to a node changes that node's table, its first finger's predecessor, and nothing else |
| RingProgram.InstallRing | chord/init:326-348 | the main loop leaves the node objects showing, as numbers, the installed ring |
| RingProgram.AskNode | chord/include/chord.h:59-85 | a node object takes the lookup's step on numbers and names only listed nodes |
| RingProgram.Find | chord/include/chord.h:59-85 | following a request among the objects for at most so many forwards is the lookup on numbers |
| RingProgram.InstallAndFind | chord/init:343-348 | a ring of digests installed by the script answers every searchable key from every node with the node looked for, within 4d + 2 forwards for d digits (258 for 64) |
| RingExamples.WrongFinger | chord/init:299-321 | a finger that is one node too far |
| RingExamples.SelfEntry | chord/init:307-324 | a table whose last entry is the node itself |
| RingExamples.LookupStays | chord/include/chord.h:59-71 | an installed ring on which a lookup stays at a node for ever |
| RingExamples.NodeKeyStays | chord/include/chord.h:59-85 | an installed ring on which the lookup of a node's identifier is forwarded for ever |
| RingExamples.GreatestKeyStays | chord/include/chord.h:59-71 | an installed ring on which a request for the greatest identifier goes round between two nodes |
| RingExamples.FourHaveNoSelf | chord/include/chord.h:106-114 | an installed ring on which no node forwards the least identifier to itself |
| RingExamples.LeastKeyStays | chord/include/chord.h:73-85 | on which a predecessor request for it still goes round between two nodes |
| RingExamples.LastPosition | chord/init:343-348 | an installed ring with wrong pointers |
| Replicas.Replica.Write | kv/server/src/replica.cpp:18-36 | the record is posted unless the slot is already as new; either way the slot or a waiting record is at least as new afterwards |
| Replicas.Replica.RunTask | kv/server/src/replica.cpp:29-35 | the oldest waiting record is logged and replaces the slot only if newer, however often the exchange fails |
| Replicas.Replica.Read | kv/server/src/replica.cpp:13-16 | the slot |
| Replicas.Replica.constructor | kv/server/src/replica.cpp:5-11 | a replica opened on a log starts with empty slots and every record posted again |
| Replicas.FoldMatchesLog | kv/server/src/replica.cpp:29-35 | taking records in one by one leaves the first one of greatest timestamp, or nothing if there is none |
| Replicas.SlotIsUnique | kv/server/src/replica.cpp:29-35 | a log determines what a slot should hold |
| Replicas.RunKeeps | kv/server/src/replica.cpp:18-40 | every run of writes, tasks and restarts keeps the relation between slots, log and waiting records |
| Replicas.StoreRefinesLog | kv/server/src/replica.cpp:9-40 | in every run, for every interleaving and any number of restarts, a slot holds the first newest record of its key in the whole log whenever nothing waits |
| Replicas.RestartIsTransparent | kv/server/src/replica.cpp:38-40 | after a restart and replay, once drained, every slot holds what the log said; if nothing was waiting, what it held before; and the log has every record twice |
| Replicas.CoversKept | kv/server/src/replica.cpp:18-36 | slot joined with waiting records never falls behind a timestamp it had reached, restarts aside |
| ReadRepair.WrittenOnKey | kv/server/src/replica.cpp:18-36 | a write to a replica acts on its own key as the round's model says and leaves the other keys alone |
| ReadRepair.RanOnKey | kv/server/src/replica.cpp:29-35 | so does a task of the log's strand |
| ReadRepair.AnswerSends | kv/server/src/coordinator.cpp:79-104 | an answer in the round does what the handler does: a newer copy is taken over and sent to every peer, an older one or another value under the same timestamp gets the own copy back, nobody else hears anything |
| ReadRepair.PlaceMoves | kv/server/src/replica.cpp:18-36 | a write that arrives waits unless the slot is as new, and a task installs the oldest one only if newer, at one place alone |
| RepairTimes.RepairConverges | kv/server/src/coordinator.cpp:79-121 | from any start, with writes waiting or under way, that meets the condition of ConvergesIff: for any delivery order, once nothing is under way every replica has the greatest timestamp (absent counted as empty at time 0) and a value held at the start |
| RepairTimes.ConvergesIff | kv/server/src/coordinator.cpp:79-121 | every run ends so if and only if every replica has the greatest timestamp in its slot, waiting or under way, or the coordinator's slot has it, or the coordinator has it nowhere and some peer's slot has it |
| RepairTimes.DrainedConverges | kv/server/src/coordinator.cpp:79-121 | with nothing waiting and no write under way at the start the condition always holds |
| RepairTimes.WaitingDoesNotConverge | kv/server/src/coordinator.cpp:79-104 | a start, with a write waiting at the coordinator, that does not meet the condition |
| RepairTimes.WaitingWriteIsMissed | kv/server/src/coordinator.cpp:79-104 | a run in which the coordinator's newest write still waits and one peer ends behind |
| RepairValues.SameAboveZeroIff | kv/server/src/coordinator.cpp:79-104 | for a greatest timestamp above 0: every run ends with one value everywhere if and only if the round converges and no two replicas may end with different elements under that timestamp |
| RepairAtZero.SameAtZeroIff | kv/server/src/coordinator.cpp:79-121 | for a greatest timestamp of 0, where absent copies answer with the empty value: if and only if no two may end with different elements and there are no peers, or only the empty value can be left, or the coordinator's slot is filled, or every replica is bound to its element, or every peer's slot is filled |
| RepairAtZero.SameValueIff | kv/server/src/coordinator.cpp:79-121 | both together, for every start |
| RepairAtZero.AbsentKeySettles | kv/server/src/coordinator.cpp:112-119 | a key no replica has meets the condition |
| RepairValues.TiesStay | kv/server/src/coordinator.cpp:95-103 | two replicas with different values under one timestamp, which converge in time but not in value |
| ReadRepair.StepWorks | kv/server/src/coordinator.cpp:79-121 | every step leaves strictly less to do |
| ReadRepair.NotQuietMoves | kv/server/src/coordinator.cpp:79-121 | as long as something is under way some step is possible |
| ReadRepair.RoundEnds | kv/server/src/coordinator.cpp:79-121 | a round takes no more steps than there was work at its start |
| Coordinators.Coordinator.HandlePut | kv/server/src/coordinator.cpp:171-211 | the own replica takes the key, value and timestamp in as a write; one hint per replica is posted in handoff mode; the uuid waits with one less than the consistency asked for, modulo 2^32; every channel is sent exactly that record; the client is answered at once exactly for consistency 1 |
| Coordinators.Coordinator.HandleWriteComplete | kv/server/src/coordinator.cpp:213-232 | the client is answered exactly when the counter stands at one; the counter falls by one modulo 2^32 and a hint is dropped; an unknown uuid raises an error |
| Coordinators.Coordinator.HandleDoWrite | kv/server/src/coordinator.cpp:234-243 | the record waits unless the slot is as new, the replica covers it, and it is acknowledged unless it belongs to a repair |
| Coordinators.Coordinator.HandleReadRepair | kv/server/src/coordinator.cpp:106-121 | the slot, an absent one as the empty value at time 0 |
| Coordinators.Coordinator.HandleReadRepairResponse | kv/server/src/coordinator.cpp:79-104 | exactly when there is no own copy or an older one, the sender's copy is written and sent to all; exactly when the own one is newer, or has another value under the same timestamp, it is sent back; otherwise nothing happens |
| Coordinators.Coordinator.ReplayHints | kv/server/src/coordinator.cpp:16-28 | start-up counts every hint of the log, in handoff mode |
| Coordinators.Coordinator.RunHintTask | kv/server/src/coordinator.cpp:184 | the oldest waiting hint goes to the end of the hint log, and exactly its own counter changes, by one up or down |
| Coordinators.Coordinator.Reconnected | kv/server/src/coordinator.cpp:357-376 | a replica that comes back is sent the handoff specified for it in handoff mode, and nothing otherwise |
| HandoffDelivery.HandoffHas | kv/server/src/coordinator.cpp:361-373 | the handoff has the slot of every key with a hint |
| HandoffDelivery.HandoffHasOnly | kv/server/src/coordinator.cpp:361-373 | and nothing else |
| HandoffDelivery.HandoffInOrder | kv/server/src/coordinator.cpp:361-373 | in the order of the keys, none twice |
| Handoffs.StepCovers | kv/server/src/coordinator.cpp:171-243 | every event keeps: the coordinator covers every put it took, a peer every put it acknowledged, and no put is acknowledged twice by one peer |
| Provenance.NothingInvented | kv/server/src/coordinator.cpp:171-243 | in every run every record in a slot, in a log, waiting or under way was there at the start or is exactly the key, value and timestamp of a client's put or of a write from elsewhere |
| Answerable.MessagesCarryPuts | kv/server/src/coordinator.cpp:200-210 | in every run a write under way with a uuid carries exactly the key, value and timestamp of the put taken under that uuid |
| Answerable.PutIsSent | kv/server/src/coordinator.cpp:200-210 | any put under a new uuid, for a number of copies from one to all replicas, can be taken, and sends every peer one write with its key, value and timestamp |
| Acknowledgements.CountDown | kv/server/src/coordinator.cpp:215-222 | the unsigned counter stands at one only before the acknowledgement that makes up the number asked for, though it passes below zero |
| Acknowledgements.AcknowledgedPuts | kv/server/src/coordinator.cpp:188-222 | in every run each put is answered at most once, and exactly when consistency 1 was asked or so many distinct peers acknowledged; the coordinator and those peers then cover it |
| Acknowledgements.AnsweredAt | kv/server/src/coordinator.cpp:213-222 | the event that answers is the put itself or the (c - 1)-th acknowledgement, and no other |
| Answerable.AnswerableIff | kv/server/src/coordinator.cpp:213-222 | at every reachable state a put has been or can still be answered if and only if, with the coordinator, there are as many replicas as the client asked for where neither the write nor its acknowledgement was lost |
| Answerable.EveryPutCanBeAnswered | kv/server/src/coordinator.cpp:188-222 | so every put just taken can be answered |
| HintCounters.ReplayCounts | kv/server/src/coordinator.cpp:20-28 | replaying the hint log rebuilds the counters it accounts for |
| HintCounters.HintsSurvive | kv/server/include/log.hpp:43-52 | in every run from counters the hint log accounts for, each counter is at all times the hints added less the hints dropped in the log, and replaying that log from zero gives all of them back |
| HintCounters.RestartIsFresh | kv/server/src/coordinator.cpp:16-28 | so a coordinator restarted at any moment has every counter as it was and again meets what the runs start from |
| HintCounters.FirstStartIsFresh | kv/server/src/coordinator.cpp:10-28 | a first start, with any number of peers, meets what the runs are assumed to start from |
| HintCounters.HintsCountUnacked | kv/server/src/coordinator.cpp:178-186 | no counter is ever negative; with no hint for the peer and key waiting it exceeds its start by exactly the puts on the key that the peer has not acknowledged |
| HandoffDelivery.HandoffCoversIff | kv/server/src/coordinator.cpp:357-376 | at every reachable state, whatever waits: however things go on after a reconnect without losing a handed-off write, the peer covers a timestamp of a key once the handoff has arrived, if and only if it covered it before, or an earlier handoff that does is under way, or the key has a hint and the coordinator's slot is as new; acknowledged puts are among these |
| HandoffDelivery.HandoffCompletes | kv/server/src/coordinator.cpp:357-376 | so it does for every put the peer acknowledged, and for every put of whose key neither a hint for the peer nor a write of the coordinator waits |
| HandoffDelivery.WaitingPutIsMissed | kv/server/src/coordinator.cpp:361-366 | a run in which an answered put, still waiting on the strand, is not handed over |

## Left out

- Sockets, timers, name resolution, threads and strand internals: steps are chosen freely and queues are FIFO.
- Protobuf and Thrift encodings and the generated code: bodies are opaque.
- SHA-256 is an arbitrary function from addresses to strings; distinct digests are a hypothesis.
- Bank: markers run on a strand while transfers are credited inline; the model has every handler atomic and in arrival order.
- Bank: an InitBranch after the first transfer, and overlapping snapshot rounds, which the controller's timers keep apart.
- Bank: how amounts, targets and delays are drawn; the floating-point bounds on amounts are not needed, the guard alone prevents overdrawing.
- Bank: printing of the collected snapshots.
- Channels: connection errors and reconnects; in the key-value store they appear as lost messages and a reconnect event.
- Logs: what the parser makes of a record torn within its body.
- Chord: the file operations, and transport failures of calls between nodes.
- LocalNodes.LocalNode.FindPredecessor: the program's different texts for a missing finger table are one error.
- Replicas.StoreRefinesLog: writes from elsewhere do not interleave with replay itself, as the log's own comment demands.
- Replicas: the log's bytes; `Logs` shows that what is appended is what is replayed.
- ReadRepair: puts during a round, and rounds that overlap.
- Key-value store: quorum reads, whose replies the coordinator never adds to its results.
- Handoffs: restarts within a run, which lose writes and hints still waiting; `RestartIsFresh` starts a new run after a restart of the coordinator.
- HintCounters: the width of the hint counters; the number of hint rows equals the number of peers, where the program has three.
- The key-value client, configuration files, the HTTP server and build files: wrappers with only easy claims.
