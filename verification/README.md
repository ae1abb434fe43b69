# A verified model of `capture`

`capture` is a process monitor for Linux. In every round it lists the live pids, rebuilds a
two-stage index (4-tuple text to socket inode to pid), attributes the captured packets to
processes through that index, reconciles its map of tracked processes with the live pids, and
reports rows from two buffers that it reuses and never shrinks. This project models that machine
in Dafny and proves what it does over whole runs.

## How it is built

The code that changes things is modelled by classes with the source's own fields: `CaptureCxx`,
`CapInodeHelper`, `CapPacket`, `CapProcess`, `CapHandle`. Each of their methods is proved against
a function on values, and the properties are proved about those functions, for all inputs and all
runs. `Capture.Drive` closes the gap: an object that is initialised once and then updated any
number of times goes through exactly the states of `Monitor.Run`.

| file | content |
|---|---|
| `Text.dfy` | decimal and hexadecimal numerals, addresses, flow keys and their decoding |
| `Packets.dfy` | device addresses, direction, canonical key, the cached key of `CapPacket` |
| `InodeIndex.dfy` | socket rows, key expansion, the inode table, the naive scan, `CapInodeHelper` |
| `Processes.dfy` | byte counters, CPU readings, what a parse changes, `CapProcess` |
| `Frames.dfy` | frame decoding and building, the handle context, `CapHandle` |
| `Ordered.dfy`, `Reconcile.dfy`, `Merge.dfy` | ascending walks, the meaning of the merge, its loop half way |
| `Monitor.dfy` | states, `Init`, `Update` and runs as functions |
| `Capture.dfy` | the object `CaptureCxx` and its proofs against `Monitor` |
| `Picks.dfy`, `Deliveries.dfy`, `Runs.dfy` | filtered lists; the packet phase as a list of calls and accepted packets; what a run keeps |
| `Accounting.dfy`, `Ledger.dfy` | conservation of bytes, in total and per process and direction |
| `Tracking.dfy`, `Parses.dfy`, `CpuShare.dfy` | who is tracked and told about, the parses that make an entry, CPU readings and shares |
| `Reports.dfy`, `Rows.dfy`, `PacketReports.dfy` | what updates, their rows and packet reports show, and exactly when they are right |
| `Scenarios.dfy` | short concrete runs on which reports go wrong |

Everything a round reads from outside is an input (`Monitor.Env`): the pids in /proc, the socket
tables already split into fields, the fd links, the packets and return value of each dispatch, the
CPU total, and how far each parse of /proc/pid gets. Callbacks, handler calls and the comings and
goings of entries are recorded as traces. Machine integers are written out: byte counters, CPU
totals and percentages' numerators wrap at 2^64, inodes are cut to 32 bits. `inet_ntop` for IPv4 is
modelled digit by digit; for IPv6 it is any function whose texts name their address, hold at least
two colons, no dash and no NUL (`Text.Printer6`). Percentages are exact reals.

`dafny verify dfyconfig.toml` checks the whole project. Proofs name what they do not need to look
into with `hide`, which keeps each of them small.

## What the code does, where that may surprise

These follow from the code as written and are proved, not assumed.

- The merge is safe only if every live pid is already tracked. A live process loses its entry
  exactly when the numbers of live and tracked pids differ and some smaller live pid is untracked
  (`Reconcile.LiveErasedIff`, an instance in `Reconcile.LiveProcessLost`). Tracked and live pids
  coincide after a reconcile exactly under the condition of `Reconcile.CaughtUpIff`.
- A second merge with the same live pids changes nothing (`Reconcile.AfterIsFinal`). So a dead
  process that a round left behind stays tracked, and a live one that it lost stays lost, for as
  long as the listing does not change and no packet arrives (`Tracking.UnchangedListingSettles`).
- Processes are parsed again only inside the merge. While the set of processes stays the same,
  nothing but the byte counters ever changes and every row reports no CPU use at all
  (`CpuShare.SteadyMonitorSeesNoCpu`), although README.md of the source promises a current value.
- A process that a packet makes known is given its whole lifetime's CPU time over the system delta
  of an earlier round: the share exceeds 100 exactly when it ever used more than that delta
  (`CpuShare.CreatedShare`; in `Scenarios.ShareWithoutBound` it is 50000).
- A device whose IPv4 address prints with 15 characters is never attributed any packet, sent or
  received (`InodeIndex.AttributableIff`): its text does not fit the 15 bytes it is printed into.
- The first key stored for a row lacks a colon before the remote port. It never matches an IPv4
  packet (`InodeIndex.FirstKeyNeverMatches`), so IPv4 lookups succeed through the per-device keys
  only. It can match an IPv6 packet of another socket: the index agrees with a scan for all tables
  exactly when no address prints like the remote end, a colon and the first digits of the remote
  port (`InodeIndex.ScanAgreesIff`). A row for 1::2:3 with port 80 answers for packets to 1::2 with
  port 380 (`InodeIndex.ConfusedTexts`).
- With IPv4 options the ports are read from the options (`Frames.OptionsHidePorts`).
- The size given with the packets is the last handle's dispatch result. A round reports exactly
  its packets only if that result happens to be their number (`PacketReports.PacketReport`). A
  larger one makes the client read rows of an earlier round, or beyond the buffer, exactly under
  the conditions of `PacketReports.ReportIsSoundIff`; a result of 0 hides the packets of the other
  handles. A reused slot is marked TCP even for a UDP packet. All four happen within two rounds
  after `Init` (`Scenarios.OldRowReported`, `Scenarios.ReportBeyondBuffer`,
  `Scenarios.PacketNotReported`, `Scenarios.UdpReportedAsTcp`).

## Model

| member | source | states |
|---|---|---|
| Text.DecRoundTrip | src/cap_packet.cpp:93-98 | a printed port or address byte denotes the number printed |
| Text.SignedText | src/cap_inode_helper.cpp:161-162 | what is printed of a port below zero is a dash and its distance from zero |
| Text.QuadTextRoundTrip | src/cap_packet.cpp:83-91 | a printed IPv4 address reads back as the same address |
| Text.KeyRoundTrip | src/cap_packet.cpp:83-101 | for all IPv4 addresses and ports the key parses back to the same four values and has at most 43 characters |
| Text.KeyInstance | src/cap_packet.cpp:83-101 | the key and the first key of 10.0.0.1 port 7 and 10.2.0.9 port 9, character by character |
| Text.JoinKeyUnique | src/cap_inode_helper.cpp:169-175 | two keys are equal only if all four parts are, whatever texts and signed ports a row brings |
| Text.PrimaryIsNeverAKey | src/cap_inode_helper.cpp:161-164 | a first key, with no colon before the remote port, never equals an IPv4 packet key |
| Text.RunsOnIff | src/cap_inode_helper.cpp:161-162 | an address text directly followed by a port reads as another endpoint iff it is that address, a colon and the first digits of that port, and the port has the rest |
| Text.Hex8RoundTrip | src/cap_inode_helper.cpp:132-154 | eight printed hexadecimal digits read back as the same 32-bit word |
| Text.CaseIsIgnored | src/cap_inode_helper.cpp:114-116 | hexadecimal digits are read alike in either case |
| Text.LoopbackText | src/cap_inode_helper.cpp:149-154 | 127.0.0.1 is the word that prints as 0100007F |
| Packets.ContainsAddr | src/capturecxx.h:41-57 | the search loop answers whether some device has exactly this address and family |
| Packets.LinkTextInjective | src/cap_packet.cpp:104-121 | distinct flows, of either family, have distinct link texts |
| Packets.DirectionCanonical | src/cap_packet.cpp:54-101 | a packet and its reply have the same key iff exactly one end is local or both ends are the same |
| Packets.KeyNamesConversation | src/cap_packet.cpp:78-102 | two packets share a key only if they are the same flow or one is the reply of the other |
| Packets.CacheStaysCoherent | src/cap_packet.cpp:36-121 | any sequence of Invert, IsOutgoing, Hash and Link keeps direction settled and the cached key equal to a recomputed one; the packet is the original or its inversion by parity |
| Packets.InvertTwice | src/cap_packet.cpp:36-52 | inverting twice restores the packet |
| Packets.InvertMeans | src/cap_packet.cpp:36-52 | an inverted packet has the reply's ends and link text, the opposite answer of IsOutgoing, and the same key |
| Packets.InitCoherentIff | src/cap_packet.cpp:6-34 | Init leaves a coherent cache iff the packet was fresh, or had a direction and already cached its right key |
| Packets.CapPacket.constructor | src/cap_packet.h:15-16 | a new packet has no cached key |
| Packets.CapPacket.Init4 | src/cap_packet.cpp:6-19 | sets the IPv4 flow, then hashes; a key cached before is kept |
| Packets.CapPacket.Init6 | src/cap_packet.cpp:21-34 | the same for IPv6 |
| Packets.CapPacket.Invert | src/cap_packet.cpp:36-52 | flips the direction and swaps the ends; without a family only the direction flips |
| Packets.CapPacket.IsOutgoing | src/cap_packet.cpp:54-76 | answers by the settled direction, or settles it by whether the source is a device |
| Packets.CapPacket.Hash | src/cap_packet.cpp:78-102 | returns the cached key, or caches local end first and remote end second |
| Packets.CapPacket.Link | src/cap_packet.cpp:104-121 | source then destination, whatever the direction |
| InodeIndex.DecodeRow | src/cap_inode_helper.cpp:122-154 | a row is accepted iff it matched and its inode is not 0, keeps inode and ports, and both ends are IPv4 iff the local text is short or of mapped form; the addresses are stated by Row4Decodes and Row6Decodes |
| InodeIndex.WordBytes | src/cap_inode_helper.cpp:139-140 | the word tests for a mapped address are tests for zero bytes and two bytes of 255 |
| InodeIndex.MappedBytes | src/cap_inode_helper.cpp:139-140 | an address counts as mapped iff its first ten bytes are 0 and the next two 255 |
| InodeIndex.ScanHexReads | src/cap_inode_helper.cpp:151-152 | up to eight digits are read as they stand, of up to sixteen the last eight, and beyond 64 bits all bits are set |
| InodeIndex.CutWords | src/cap_inode_helper.cpp:132-137 | where the digits of an IPv6 address end early, the last word is what is left and the others are zero |
| InodeIndex.MoreDigits | src/cap_inode_helper.cpp:132-137 | digits behind the fourth word of an IPv6 address are not read |
| InodeIndex.RowDecodes | src/cap_inode_helper.cpp:132-154 | any accepted row, with addresses of any length: one word each as its numeral stands, or four words each, of which a mapped local address keeps the last |
| InodeIndex.WordsRoundTrip | src/cap_inode_helper.cpp:132-137 | the four printed words of an IPv6 address read back as that address |
| InodeIndex.Row4Decodes | src/cap_inode_helper.cpp:149-154 | a printed IPv4 row decodes to its own ends |
| InodeIndex.Row6Decodes | src/cap_inode_helper.cpp:132-148 | a printed IPv6 row decodes to its own ends, or to the IPv4 ends of a mapped one |
| InodeIndex.MappedRowUpdatesAlike | src/cap_inode_helper.cpp:132-175 | an IPv4-mapped row of an IPv6 table makes exactly the key updates of the plain IPv4 row |
| InodeIndex.PidTableExact | src/cap_inode_helper.cpp:178-213 | an inode is recorded iff some pid below the first unreadable fd directory holds it, and for the greatest such pid |
| InodeIndex.FirstKeyNeverMatches | src/cap_inode_helper.cpp:161-164 | no row's first key is ever the key of a packet with an IPv4 remote end |
| InodeIndex.FirstKeyIs | src/cap_inode_helper.cpp:161-164 | a row's first key is the key of a flow, of either family, iff local end and port agree and the remote address runs on into the remote port |
| InodeIndex.DeviceKeysHold | src/cap_inode_helper.cpp:166-175 | a row's device keys hold the key of a flow, of either family, iff the local address is a device with a stored text and port, remote address and remote port agree |
| InodeIndex.NoDeviceText | src/local_addr.h:19-38 | a device has no text iff it has no address or an IPv4 one of 15 characters |
| InodeIndex.ApplyRowsAt | src/cap_inode_helper.cpp:102-176 | after any rows the key of a packet maps to the inode of the last accepted row that names its flow or is misread for it, and is absent if there is none |
| InodeIndex.LookupExact | src/cap_inode_helper.cpp:54-77 | for all devices, tables, pids and directories, a key of either family leads to the last row that answers for it in udp6, else in udp, else in tcp6, else in tcp; when a table cannot be opened only those before it count, and no pid is found |
| InodeIndex.AnyTableAnswers | src/cap_inode_helper.cpp:57-75 | a row alone in any one of the four tables is found for its flow |
| InodeIndex.ClosedTables | src/cap_inode_helper.cpp:54-77 | a refresh that cannot open a table leaves exactly the keys of the tables before it, and no pids |
| InodeIndex.ScanAgreesIff | src/cap_inode_helper.cpp:127-175 | looking a key up gives the pid or error of a naive scan, whatever tables, pids and directories hold, iff no other address can be confused with the remote end |
| InodeIndex.IndexEqualsScan | src/cap_inode_helper.cpp:37-52 | for an IPv4 remote end lookup always agrees with a scan that reads the tables one by one |
| InodeIndex.PacketLookupEqualsScan | src/capturecxx.cpp:352-356 | the same for the key of a packet, from whichever end is local, for every packet that cannot be confused: all IPv4 ones and the IPv6 ones that ScanAgreesIff admits |
| InodeIndex.AttributableIff | src/local_addr.h:19-24 | a packet, sent or received, can be attributed by some tables iff the device at its local end has a stored text (an IPv4 one of fewer than 15 characters) or its key can be confused |
| InodeIndex.ConfusedTexts | src/cap_inode_helper.cpp:161-162 | with addresses that print as 1::2:3 and 1::2, packets to the second with port 380 can be confused |
| InodeIndex.ConfusableInstance | src/cap_inode_helper.cpp:161-162 | such texts and such a flow exist |
| InodeIndex.LongAddressExists | src/local_addr.h:22-22 | 192.168.100.100 prints with 15 characters |
| InodeIndex.LookupIsLive | src/cap_inode_helper.cpp:19-35 | any pid a lookup finds was listed for this very refresh |
| InodeIndex.KeysComeFromRows | src/cap_inode_helper.cpp:54-77 | every stored key comes from an accepted row of this refresh and carries that row's inode |
| InodeIndex.CapInodeHelper.constructor | src/cap_inode_helper.h:26-28 | both maps start empty |
| InodeIndex.CapInodeHelper.Refresh | src/cap_inode_helper.cpp:19-35 | the maps become the index of this refresh's inputs alone, also when a table or directory fails, with the matching code |
| InodeIndex.CapInodeHelper.GetPidByIp | src/cap_inode_helper.cpp:37-52 | code 0 and the pid, or CAP_FIND_IP or CAP_FIND_INODE with the pid untouched |
| InodeIndex.CapInodeHelper.RefreshToInodes | src/cap_inode_helper.cpp:54-77 | tcp, tcp6, udp and udp6 take effect in this order, up to the first that cannot be opened, with the matching code |
| InodeIndex.CapInodeHelper.Parse | src/cap_inode_helper.cpp:79-100 | all rows of one table take effect in order, or none if it cannot be opened |
| InodeIndex.CapInodeHelper.ParseBuffer | src/cap_inode_helper.cpp:102-176 | one row's effect on the key map |
| InodeIndex.CapInodeHelper.RefreshToPids | src/cap_inode_helper.cpp:178-213 | the inode table over ascending pids, cut off at the first unreadable directory |
| Processes.DeltasTelescope | src/cap_process.cpp:227-235 | the steps reported along any readings sum to the distance covered modulo 2^64, exactly if they never go back, and the last reading is kept |
| Processes.ParseKeepsCounters | src/cap_process.cpp:23-64 | a parse leaves pid, recv and send alone; a failed one also the CPU reading and share |
| Processes.ParseTellsAll | src/cap_process.cpp:23-64 | stage by stage: the copied fields and the memory share are those of this parse if it came to them, else those before; a complete parse sets the CPU share |
| Processes.PercentIs | src/cap_process.cpp:50-61 | a percentage times its base is a hundred times the part, cut to 64 bits; of nothing it is 0 |
| Processes.PercentIsExact | src/cap_process.cpp:50-61 | short of wrapping, a percentage times its base is a hundred times the part |
| Processes.CreditAdds | src/cap_process.cpp:251-257 | a packet adds its length to the bytes of its process, up to one wrap, and changes nothing else |
| Processes.CapProcess.constructor | src/cap_process.h:22-22 | a new process has its pid and zero counters |
| Processes.CapProcess.Parse | src/cap_process.cpp:19-64 | the fields and shares that the stages before a failure set, what stays, and the code of that failure |
| Processes.CapProcess.ParseStat | src/cap_process.cpp:202-239 | one step of the counter per line read |
| Processes.CapProcess.AddPacket | src/cap_process.cpp:251-257 | credits send or recv by the packet's direction, which gets settled |
| Frames.CapHandle.constructor | src/cap_handle.h:48-51 | a new handle has no context |
| Frames.CapHandle.SetContext4 | src/cap_handle.h:81-85 | the context becomes these IPv4 addresses |
| Frames.CapHandle.SetContext6 | src/cap_handle.h:87-91 | the context becomes these IPv6 addresses |
| Frames.DecodeInvertsBuild4 | src/cap_protocol.cpp:81-99 | a frame built with an IPv4 header of length 5 decodes, on Ethernet and raw links, to exactly its addresses and ports |
| Frames.DecodeInvertsBuild6 | src/cap_protocol.cpp:101-120 | the same for an IPv6 header without extension headers |
| Frames.CallIff | src/cap_protocol.cpp:19-120 | any frame, whatever its bytes, causes a call iff link type, Ethernet type or version and the protocol byte say TCP or UDP, and of that kind |
| Frames.CallReads | src/cap_protocol.cpp:81-120 | a call has the addresses and ports that stand at fixed offsets of its frame, whatever else is in it |
| Frames.ContextReads | src/cap_protocol.cpp:81-120 | any IP frame leaves its own addresses in the handle's context, also one of another protocol; other frames leave it alone |
| Frames.Decode4 | src/cap_protocol.cpp:81-85 | with any options the addresses are right and the ports come from the 20th byte on |
| Frames.OptionsHidePorts | src/cap_protocol.cpp:84-84 | with options the ports are right iff the first option word spells them |
| Frames.LinkTypesAgree | src/cap_protocol.cpp:38-79 | on the same IP bytes the Ethernet and raw paths make the same call |
| Reconcile.WalkErases | src/capturecxx.cpp:102-126 | the two-iterator walk erases a tracked pid iff it does not survive |
| Reconcile.WalkMeaning | src/capturecxx.cpp:102-126 | for any live and tracked sets the walk erases the pids not kept, each once, ascending |
| Reconcile.KeptCases | src/capturecxx.cpp:102-126 | kept: the live pids below the least untracked live one; else the live pids and the tracked ones above them; all if none is live |
| Reconcile.TrackedLiveAreSafe | src/capturecxx.cpp:96-126 | if all live pids are tracked, equal sizes mean equal sets, no live one is erased and every dead one below a live one is |
| Reconcile.LiveErasedIff | src/capturecxx.cpp:102-126 | a live process is erased iff the sizes differ and a smaller live pid is untracked |
| Reconcile.CaughtUpIff | src/capturecxx.cpp:102-126 | exactly the live pids are tracked afterwards iff they already were, or all were and every dead one lies below a live one |
| Reconcile.SettledIff | src/capturecxx.cpp:102-126 | a merge changes nothing iff the sizes agree, or the first live pids are tracked, or the live ones and dead ones above them all |
| Reconcile.AfterIsFinal | src/capturecxx.cpp:102-126 | a second merge with the same live pids changes nothing |
| Reconcile.LiveProcessLost | src/capturecxx.cpp:102-126 | live 1 2 3 4, tracked 1 2 4: process 4 is erased |
| Merge.PassErase | src/capturecxx.cpp:110-119 | an erase step of the iterators keeps the loop's invariant |
| Merge.PassKeep | src/capturecxx.cpp:120-124 | a keep step of the iterators keeps it |
| Merge.MergeEnd | src/capturecxx.cpp:109-125 | when either iterator ends, the walk's pids are gone and exactly the live ones left are parsed |
| Deliveries.FrameIsDelivery | src/cap_protocol.cpp:19-120 | a frame causes the call that its own bytes describe, whatever context the handle held |
| Deliveries.HandlingsArePicked | src/cap_protocol.cpp:81-120 | of any frames of a handle exactly those that cause a call make one, each at the place that counts the calls before it |
| Deliveries.RoundHasEveryHandle | src/capturecxx.cpp:84-94 | the calls of a round are those of all its handles, one handle after the other |
| Deliveries.HitsArePicked | src/capturecxx.cpp:352-369 | the accepted packets are exactly the calls whose lookup succeeds, in order |
| Deliveries.DispatchIsDeliveries | src/capturecxx.cpp:84-94 | dispatching the handles is delivering the calls of their frames in order, and changes nothing but books and contexts |
| Deliveries.ContextsAreCoherent | src/capturecxx.cpp:334-350 | from any state the handlers see exactly this round's frames, each with its own addresses, so the unknown-family exit is not reached |
| Deliveries.DeliverIsTakingHits | src/capturecxx.cpp:352-369 | only packets whose lookup succeeds matter to processes and packet buffer |
| Deliveries.PacketRows | src/capturecxx.cpp:371-406 | slot i holds the i-th accepted packet's link text and length, marked TCP if the slot was reused and by its kind if new |
| Deliveries.HitsFillBuffer | src/capturecxx.cpp:459-494 | after k accepted packets the next slot is k and slots 0 to k-1 hold exactly those packets in order, the rest unchanged |
| Deliveries.PacketBufferOfRound | src/capturecxx.cpp:80-94 | the same for a whole round over all handles, with buffer length the greater of old length and k |
| Deliveries.LinkIsShownInFull | src/capturecxx.cpp:379-380 | an IPv4 link text is never cut in the reported field |
| Runs.UpdateParts | src/capturecxx.cpp:78-204 | a round keeps the configuration; its books are those of the packet phase, reconciled unless the round ended early, and then it reports nothing |
| Runs.InitParts | src/capturecxx.cpp:17-76 | what one Init on a fresh monitor sets up, also when there is no device |
| Runs.RunKeepsFrame | src/capturecxx.cpp:78-204 | devices, callbacks and link types stay as Init set them over every run |
| Runs.RunHandles | src/capturecxx.cpp:41-65 | over every run there is one handle per device that could be opened, in order, each with its own device's link type |
| Runs.HandlesInstance | src/capturecxx.cpp:41-65 | an Ethernet device, one that does not open and a raw one give an Ethernet and a raw handle |
| Runs.HitsAreLive | src/capturecxx.cpp:81-94 | every packet accepted in a round belongs to a process listed in that round |
| Accounting.ReconcileConserves | src/capturecxx.cpp:109-125 | a reconcile moves the bytes of erased entries to the trace and changes no others |
| Accounting.RoundAccounted | src/capturecxx.cpp:78-204 | a round, also one that ends early, accounts for exactly its accepted packets |
| Accounting.BytesAreConserved | src/capturecxx.cpp:352-369 | over every run the bytes of tracked and ever erased entries are those of all accepted packets, exactly below 2^64 and modulo 2^64 always |
| Ledger.ProcessBytesAreConserved | src/cap_process.cpp:251-257 | the same for every pid and each direction by itself |
| Tracking.TrackingAlternates | src/capturecxx.cpp:109-125 | in every run additions and erasures of each pid alternate, and one is outstanding exactly when it is tracked |
| Tracking.EntriesAreFiled | src/capturecxx.cpp:360-369 | in every run an entry bears the pid it is filed under, and only pids listed at some refresh are tracked |
| Tracking.NewEntriesAreLive | src/capturecxx.cpp:448-457 | a round adds an entry only for a pid it listed itself |
| Tracking.ReconcileKeys | src/capturecxx.cpp:102-126 | the tracked pids after a reconcile are the set that the merge theorems describe |
| Tracking.RemovalsAreErasures | src/capturecxx.cpp:112-119 | the REMOVE callbacks are exactly the erased pids, each once, ascending |
| Tracking.RunRemovalsAreErasures | src/capturecxx.cpp:112-119 | over every run the REMOVE callbacks are exactly the erasures in order, or none without a callback |
| Tracking.RunIsSilent | src/capturecxx.cpp:112-201 | over every run there is no removal and no update without a process callback and no packet report without a packet callback |
| Tracking.UnchangedListingSettles | src/capturecxx.cpp:96-126 | after a full round from any state, rounds with the same listing and no accepted packet neither add nor erase anything |
| Tracking.RoundPublishes | src/capturecxx.cpp:128-196 | a round's callbacks are its removals, one update and its packet report; the update's first rows are the report built from scratch, whatever the buffer held, and the buffer never shrinks |
| Tracking.ProjectionOrder | src/capturecxx.cpp:133-161 | that report has one row per entry, by strictly ascending pid |
| Tracking.SizeIsExact | src/capturecxx.cpp:194-195 | in every run the 32-bit size is the number of tracked processes |
| Reports.AttributionEqualsScan | src/capturecxx.cpp:352-356 | an IPv4 packet, and any that cannot be confused, is accepted, and for which pid, exactly as a scan of this round's inputs decides |
| Reports.HitTells | src/capturecxx.cpp:335-406 | an accepted packet of either family has the text source-destination, kind and length of its own frame, and counts as sent iff its source is a device |
| Reports.CallCode | src/capturecxx.cpp:347-356 | a call returns 41 without addresses, 43 without a row, 44 without a holder and 0 iff it is accepted |
| Reports.RunCalls | src/cap_protocol.cpp:81-120 | over every run the handlers are called for exactly the TCP and UDP frames in order, with their own addresses and ports |
| PacketReports.PacketReport | src/capturecxx.cpp:198-201 | a round reports exactly its packets iff it has some and the last dispatch result is their number; it reports nothing iff that result is not positive or there never was a packet |
| PacketReports.Slots | src/capturecxx.cpp:459-494 | after a round each slot below the number of its packets holds its packet, with the right kind iff the slot is new or the packet is TCP; the slots behind are as before |
| PacketReports.ReportIsSoundIff | src/capturecxx.cpp:198-201 | exactly when a report reaches beyond the buffer, when it shows rows of an earlier round, and when all it shows is this round's with the right kind |
| Scenarios.ReportBeyondBuffer | src/capturecxx.cpp:198-201 | in the first round, two frames of which one is accepted give a report of size 2 over one row |
| Scenarios.PacketNotReported | src/capturecxx.cpp:84-94 | a packet on the first handle and none on the last is not reported |
| Scenarios.OldRowReported | src/capturecxx.cpp:198-201 | after a round with a packet, a frame that is no packet reports the old row again |
| Scenarios.UdpReportedAsTcp | src/capturecxx.cpp:464-481 | the same UDP packet once more is reported as TCP |
| PacketReports.OneHandleReport | src/capturecxx.cpp:84-94 | with one handle and all frames accepted the reported size and rows are exactly the round's packets |
| Reports.LastReport | src/capturecxx.cpp:128-196 | in every run the last round appends its removals, one update and its packet report; the update has one row per tracked process, ascending, none stale, and reports with the erased entries all accepted bytes |
| Parses.RunMakesEntry | src/cap_process.cpp:23-64 | in every run an entry is, but for its byte counters, what its own parses made of a new process, with the memory size that Init read |
| Parses.EntryTells | src/cap_process.cpp:23-64 | in every run an entry holds the fields, memory share and CPU share of the last of its parses that set them |
| Rows.RowsTell | src/capturecxx.cpp:133-192 | in every run each row of the last update shows as sent and as received what packets brought its process, and the text fields, numbers and shares of the last parses that set them; every tracked process has a row |
| CpuShare.SystemDeltasTelescope | src/capturecxx.cpp:284-289 | over every run the system deltas sum to the latest total, modulo 2^64 and exactly if totals never go back |
| CpuShare.RunReadsProcess | src/cap_process.cpp:202-239 | in every run the counter of a tracked process has gone through exactly the readings of its entry's parses, those of its creation included |
| CpuShare.ProcessDeltasTelescope | src/cap_process.cpp:227-235 | over every run the deltas of a tracked process, over parses however far apart, sum to its latest utime+stime, modulo 2^64 and exactly if its readings never go back |
| CpuShare.SteadyMonitorSeesNoCpu | src/capturecxx.cpp:102-126 | if every round lists Init's pids, entries change only in their byte counters and all rows ever reported show no CPU use |
| CpuShare.QuietRound | src/capturecxx.cpp:120-124 | a round that does not parse a process leaves all but its byte counters alone |
| CpuShare.ParsingReportsStep | src/cap_process.cpp:59-61 | what a parse in the merge makes of an entry, however far it gets; a complete one, with any number of lines, reports the last step read over this round's system delta |
| CpuShare.ShareIsBounded | src/cap_process.cpp:227-235 | if a process never outruns the system, its share, in its entry and in its row of the update, is at most 100 times system time since its last reading over this round's, so at most 100 for consecutive rounds |
| CpuShare.ShareInstance | src/cap_process.cpp:59-61 | an instance: the system advances by 10, a process by 5, and a round that erases another process shows it with 50 in its row |
| CpuShare.CreatedShare | src/capturecxx.cpp:360-369 | a process that a packet made known gets, in its entry and its row, its lifetime's CPU time over an earlier round's system delta, more than 100 iff it ever used more than that |
| Scenarios.ShareWithoutBound | src/capturecxx.cpp:360-369 | an instance in the second round after Init with a row that shows a share of 50000 |
| Capture.CaptureCxx.constructor | src/capturecxx.h:68-88 | a fresh monitor |
| Capture.CaptureCxx.Init | src/capturecxx.cpp:17-76 | the object's state becomes that of Monitor.Init, with the code for no devices |
| Capture.CaptureCxx.Update | src/capturecxx.cpp:78-204 | the object's state becomes that of Monitor.Update, with the code of an early end |
| Capture.CaptureCxx.DispatchAll | src/capturecxx.cpp:83-94 | every handle is dispatched in turn and the last result is kept |
| Capture.CaptureCxx.Parse | src/cap_protocol.cpp:19-36 | handle context and books become those of one frame step, by link type |
| Capture.CaptureCxx.ProtocolIp | src/cap_protocol.cpp:38-58 | a raw frame is routed by its version, an empty one not at all |
| Capture.CaptureCxx.ProtocolEN10MB | src/cap_protocol.cpp:60-79 | an Ethernet frame is routed by its type |
| Capture.CaptureCxx.ProtocolIp4 | src/cap_protocol.cpp:81-99 | the context is set from the IPv4 header before the handler sees it |
| Capture.CaptureCxx.ProtocolIp6 | src/cap_protocol.cpp:101-120 | the context is set from the IPv6 header before the handler sees it |
| Capture.CaptureCxx.ProcessTcp | src/capturecxx.cpp:323-409 | the books after one TCP packet, and the code of a failed lookup |
| Capture.CaptureCxx.ProcessUdp | src/capturecxx.cpp:411-497 | the books after one UDP packet, and the code of a failed lookup |
| Capture.CaptureCxx.AddToProcess | src/capturecxx.cpp:358-369 | the packet is credited to its entry, which is added first if missing |
| Capture.CaptureCxx.FilePacket | src/capturecxx.cpp:459-494 | the row goes into the next slot, reused or new |
| Capture.CaptureCxx.GetCpuTotal | src/capturecxx.cpp:258-294 | total and delta after the first matching line, unchanged without one |
| Capture.CaptureCxx.ReconcileLoop | src/capturecxx.cpp:102-126 | entries, trace and callbacks after the merge, which runs only if the sizes differ |
| Capture.CaptureCxx.MergeLoop | src/capturecxx.cpp:105-125 | the two-iterator loop erases exactly the walk's pids and parses exactly the live ones left; it ends because tracked entries run out |
| Capture.CaptureCxx.FillBuffer | src/capturecxx.cpp:132-192 | overwriting and then appending leaves the report from scratch at the start of the buffer |
| Capture.CaptureCxx.PublishPacketRows | src/capturecxx.cpp:198-201 | when packets are reported and with which size |
| Capture.CaptureCxx.UpdatePids | src/capturecxx.cpp:230-256 | the pids become the listing, or none if /proc cannot be opened |
| Capture.CaptureCxx.OpenHandles | src/capturecxx.cpp:41-65 | one handle per device that could be opened, in order and without context |
| Capture.CaptureCxx.TrackListed | src/capturecxx.cpp:70-74 | one parsed entry per listed pid |
| Capture.Drive | examples/exa_capture.cpp:46-62 | one Init and any number of rounds take the object through the states of a run |

## Left out

- Opening, filtering and dispatching in libpcap (src/cap_handle.cpp): a dispatch is a list of frames and a return value.
- Reading and splitting lines of /proc (`sscanf`, line buffers): rows, links, totals and readings are inputs; hexadecimal fields are decoded.
- Finding devices with `getifaddrs` and their flags (src/cap_device.cpp, src/cap_ifaddrs.cpp): the device list is an input.
- The digits of an IPv6 address text: only what `Text.Printer6` demands of it is used.
- Name, command line, user, group, memory, io and descriptor count of a process: an input of each parse, copied into the rows.
- Copying payloads (`captureAll`): the flag is never set.
- Time stamps of packets, the logger, the singletons, the C wrapper and `Shutdown`: they add nothing to the state.
- Rounding of percentages: exact reals.
- `LocalAddr` and `CapDevice` are values: they are set once when the device list is built and never updated.
- `CapProtocol` has no state of its own: its methods are methods of `CaptureCxx` here.
- A frame's captured length: the decoder reads memory at fixed offsets without looking at it, and so does the model.
- A second `Init` on the same monitor: `Capture.CaptureCxx.Init` covers it, the theorems about runs are for one.
