# A model of the ad-hoc hub and its properties

The server lets handheld consoles that once could only meet over local radio meet over the network. Three
services share one executor thread:

- the **game hub** (`source/session.cpp`, `source/registry.cpp`): clients log in to a game, scan for groups,
  join and leave them, chat, and learn from packets who else is in their group;
- the **relay** (`source/relay_server.cpp`): sessions that stand for sockets of the emulated network register
  under names, supersede each other, wait for listeners, bond in pairs and forward framed data;
- the **status page** (`source/status_server.cpp`): who plays what, as JSON.

Because one thread runs every coroutine, whatever happens between two suspension points is one step. The
model is therefore a transition system per service. An `Event` says which suspended operation completes and
how; a scheduler may choose any event that is enabled, in any order. A read that completes after its session
was closed may deliver bytes or fail. What the program gets from elsewhere is an argument: the product
database's crosslinks and the order in which a hash table is walked (`GameModel.Oracle`), display names.

## How it is laid out

| files | what they hold |
|---|---|
| `Bytes`, `SessionNames`, `Packets`, `Json` | bytes, fixed-width fields, names, packets and JSON text, each with its round trip |
| `RelayModel` | the relay as states, events and `Step` |
| `RelayInvariant`, `RelaySteps`, `RelayFinish`, `RelayRegister`, `RelaySafety`, `RelayData`, `RelayBond`, `RelayRuns`, `RelayHistory` | the invariant, and that every step of every run keeps it |
| `RelayTheorems`, `RelayDatagrams`, `RelayPorts` | what follows for every run: bonds, pipes and queues, PDP datagrams, names and ports |
| `RelayReach`, `RelayConnects`, `RelayLimits` | what one step makes of every session: whom it reaches, who waits, who is told, the limits in numbers, what writers always manage |
| `RelayWire`, `RelayGreeting` | the client's readers, and that streams read back; when a CONNECT is told of its peer before it gets its data |
| `RelayWitness`, `RelayMeeting` | runs that show it happens |
| `RelayDirectory`, `RelayServer` | the same program with objects that change in place and string-keyed tables, proved to do exactly `RelayModel.Step` |
| `GameModel` | the hub as states, events and `Step`; `Handle..` are the handlers |
| `GameInvariant`, `GameGraph`, `GameViews`, `GameHandlers`, `GameReader`, `GameRuns`, `GameIdentity` | the invariants, and that every step of every run keeps them |
| `GameTheorems`, `GameOutbox`, `GameWitness` | what follows for every run, and what has reached the client; a run in which two clients meet |
| `GameCommands`, `GameEnds`, `GamePieces` | told from the bytes: what each command, each way to end and a shutdown do to every session and list; that the cutting of reads makes no difference |
| `GameServer` | games, groups and sessions as objects that point at each other, the reader in its fixed buffer, proved to do exactly `GameModel.Step` |
| `Status`, `StatusPage`, `StatusReader`, `StatusTheorems`, `StatusServer` | the regrouping loop against filters, the printer against a JSON reader, and the page, read by its keys, against the registry and the directory |

Each object-level method states its whole effect as an equation with a function of the old state; what the
program promises is proved about those functions, for all runs. What bytes mean is said by readers and writers on
the client's side, which use the protocol's numbers and none of the server's functions.

Three things said of the relay that sound right are not. Each has its exact condition and a run that shows it.

- **Every live session is advertised.** LISTEN and ACCEPT, or two CONNECTs from one endpoint, have different names
  but one port key. A step keeps everybody in the index advertised if and only if it is neither a registration on a
  port in use while somebody else in the index has that port, nor the end of a registered session whose port a holder
  other than itself has (`RelayPorts.AdvertisingKept`; over whole runs `AdvertisedThroughout`). After LISTEN, CONNECT
  and ACCEPT on one pair of endpoints the LISTEN is live and its port is in no directory (`UnadvertisedListener`).
- **Replacing a session puts the new one in its place.** It does if and only if the port is not advertised. The old
  session is closed in any case; when the port is advertised, and the old session's own advertisement is enough, nobody
  is left (`RelayPorts.ReplacementNeedsFreePort`; two PDP clients for one endpoint, `NobodyLeft`).
- **A CONNECT is told of its peer before it gets its data.** An ACCEPT forwards to whoever holds its peer's name, and
  that may be a newer CONNECT than the one it bonded with. A step keeps it so that notices come first if and only if
  it does not forward a block to the name of a CONNECT whose holder is open and has no bond
  (`RelayGreeting.GreetingKept`; over whole runs `GreetedThroughout`, and then all streams read back,
  `PunctualStreamsRead`). LISTEN, CONNECT, a LISTEN on the CONNECT's port, two ACCEPTs, a second CONNECT and an empty
  block bring it about (`RelayMeeting.UnreadableConnect`).

## Model

| member | source | states |
|---|---|---|
| Bytes.BoundedStrlen | source/string.hpp:15-22 | The loop stops within the field, and what stands before its result is exactly the text up to the first NUL. |
| Bytes.FixedFieldRoundTrip | source/registry.cpp:41-48 | A NUL-free text that fits a field comes back unchanged when it is stored there and read again, and the rest of the field is zeros. |
| Bytes.DecimalRoundTrip | source/status_server.cpp:144 | Printing a natural number in decimal loses nothing. |
| SessionNames.HexTextInjective | source/relay_server.cpp:209-228 | The colon-separated hexadecimal text of an address determines its bytes. |
| SessionNames.EndpointTextInjective | source/relay_server.cpp:230-250 | Address text and decimal port together determine the endpoint. |
| SessionNames.FormatInjective | source/relay_server.cpp:230-250 | A formatted session name determines the mode, the source and, where there is one, the destination. |
| SessionNames.PeerIsInvolution | source/relay_server.cpp:763-777 | The peer's peer is the session itself; CONNECT and ACCEPT swap, the ends swap, and no session is its own peer. |
| RelayDirectories.LowerBound | source/relay_server.cpp:54 | Binary search finds the one position that keeps an increasing port list increasing. |
| RelayDirectories.FindPort | source/relay_server.cpp:72 | The search finds the port, or the list does not have it. |
| RelayDirectories.TriplesAfter | source/relay_server.cpp:50-80 | A change to one port list is a change to one triple of the set. |
| RelayDirectories.RelayDirectory.Add | source/relay_server.cpp:50-61 | True exactly when the triple is new; afterwards the set is the old one and the triple. |
| RelayDirectories.RelayDirectory.Remove | source/relay_server.cpp:63-80 | Exactly the given triple goes; an address without ports has no entry. |
| RelayDirectories.RelayDirectory.Find | source/relay_server.cpp:82-87 | Absent exactly when the address advertises no port of either kind; otherwise both lists, in increasing order. |
| RelayFinish.FinishHasEffect | source/relay_server.cpp:696-723 | From every state in which the index and the counter are exact, finishing takes the session out of the index (the identity check passes), its port out of the directory, closes its peer, and counts down from above zero. |
| RelayReach.FinishReaches | source/relay_server.cpp:696-723 | Of all other sessions it closes the one under the mirrored name, if the session that finishes still holds its own name, and leaves every other one as it was. |
| RelayRegister.RegisterHasEffect | source/relay_server.cpp:274-292 | Registering supersedes just the former holder of the name, wakes just those who wait for it, and changes nobody else. |
| RelayRuns.StepKeeps | source/relay_server.cpp:427-723 | Every event keeps the whole invariant: index, waiters, directory, counter, bonds, queues, logs and pipes. |
| RelayRuns.RunKeeps | source/relay_server.cpp:427-723 | So does every run. |
| RelayHistory.StepGrows | source/relay_server.cpp:402-424 | Closed, superseded and finished are final; after registration so are the name and being established; histories only grow. |
| RelayHistory.StepActs | source/relay_server.cpp:427-640 | Whatever a step sends is sent by the session that takes it, PDP frames only when it completes a block; the inputs, names and reads of the others stay as they are. |
| RelayHistory.RunGrows | source/relay_server.cpp:402-424 | The same over whole runs. |
| RelayTheorems.NoHalfOpenBond | source/relay_server.cpp:538-565 | An open ACCEPT in the index, and an open established CONNECT, always have somebody under their peer's name. |
| RelayTheorems.FinishingClosesThePartner | source/relay_server.cpp:696-723 | Once one side of a bond has finished without being superseded, the other is closed. |
| RelayTheorems.SessionIndexIsExact | source/relay_server.cpp:274-300 | A name leads to a session if and only if the session has the name, is registered, and is neither superseded nor finished. |
| RelayTheorems.ActiveCountIsExact | source/relay_server.cpp:302-309 | The counter is the number of accepted, unfinished sessions: at most 5000, at least the size of the index. |
| RelayTheorems.AdvertisedPortsAreLive | source/relay_server.cpp:485-502 | Every advertised triple is the address and port of a session still registered and unfinished, as a PDP port if that is its mode and as a PTP port otherwise; with no active session nothing is advertised. |
| RelayTheorems.NoLostWakeup | source/relay_server.cpp:311-337 | Whoever sleeps unsignalled has nothing to wake up for: no listener, no bond and no close, no queued packet; awaited names are unregistered and no waiter list is empty. |
| RelayTheorems.BondsAreUniqueMirrors | source/relay_server.cpp:538-565 | Bonds join exact mirrors, and no session is ever in two. |
| RelayTheorems.EstablishedMeansBonded | source/relay_server.cpp:402-406 | A CONNECT is established if and only if some ACCEPT bonded it. |
| RelayTheorems.BondsPersist | source/relay_server.cpp:402-406 | No later step undoes a bond. |
| RelayTheorems.BondResumeDecides | source/relay_server.cpp:527-535 | A CONNECT whose wait resumes goes on to forwarding if and only if it was bonded before and is open, whether or not its timer had fired. |
| RelayTheorems.PtpIsTransparentPipe | source/relay_server.cpp:614-639 | In both directions of a bond, what one side accepted from the other is byte for byte a prefix of what the other sent, and all of it but the block being read as long as the receiver is open. |
| RelayTheorems.QueueIsAccounted | source/relay_server.cpp:383-400 | The byte count is the sum of the queued sizes; delivered, in flight and queued make up the accepted sends in order; an open queue is below 512000 and none exceeds that by more than one packet. |
| RelayTheorems.LogsAreWellTyped | source/relay_server.cpp:567-640 | Each mode is only ever sent its own kinds of packets, from the true sender: PDP frames, notices to a LISTEN, one notice and then PTP frames to an ACCEPT, PTP frames and at most one notice to a CONNECT. |
| RelayDatagrams.BlocksAppend | source/relay_server.cpp:583-597 | Parsing more of a PDP stream takes up where the parse of the first bytes stopped. |
| RelayDatagrams.DatagramsArriveInOrder | source/relay_server.cpp:583-610 | In every run, of the blocks in the bytes of one session that name another, those the other accepted are one uninterrupted piece, byte for byte, and it reaches to the last of them as long as the receiver is open. |
| RelayDatagrams.DatagramIsDelivered | source/relay_server.cpp:605-609 | The step that reads the last byte of a block adds it, under the sender's own address, to the log of the open session registered under the target's name, if there is one, and to no other log. |
| RelayReach.RegistrationReaches | source/relay_server.cpp:274-292 | What a registration, in any of the four modes, makes of every other session: the former holder is superseded, those who wait for the name are woken, the listener or the CONNECT that is bonded is sent a notice, and on a port in use the mirrored session is closed; everybody else is as before. |
| RelayReach.OtherStepReaches | source/relay_server.cpp:567-640 | What any other step makes of every other session: the one registered under the target's name is handed what is forwarded, and the mirrored one is closed if the session ends; everybody else is as before. |
| RelayLimits.RegistrantBegins | source/relay_server.cpp:437-472 | A session that has registered is open, has read nothing and goes on where its mode says; an ACCEPT is established and has been told of its peer, the others have been sent nothing. |
| RelayConnects.ConnectDecides | source/relay_server.cpp:507-517 | A CONNECT whose listener is not registered waits, last in the listener's list and with nothing else changed, if there is time left, and is finished, with nothing else changed, if there is none. |
| RelayConnects.TimersFire | source/relay_server.cpp:318-326 | A timer that expires puts the end of the wait on its way, and does nothing more. |
| RelayConnects.WaitersAreWoken | source/relay_server.cpp:286-291 | A registration wakes everybody who waits for the name, and does nothing else to them. |
| RelayConnects.ResumeWithoutListener | source/relay_server.cpp:508-517 | A wait that ends without its listener finishes the session, which has left the lists; the others stay on theirs. |
| RelayConnects.PeersAreTold | source/relay_server.cpp:524-561 | One notice of the newcomer's endpoint goes to the listener of a CONNECT, and to the CONNECT that an ACCEPT bonds with; nobody else is sent anything, and nobody at all when the port is in use. |
| RelayConnects.BadInitEnds | source/relay_server.cpp:427-479 | An init packet that does not arrive, or has an unknown type, finishes its session and nothing else. |
| RelayConnects.LonelyAcceptEnds | source/relay_server.cpp:541-550 | So does an ACCEPT that finds no CONNECT without a bond. |
| RelayMeeting.EarlyConnectMeets | source/relay_server.cpp:504-536 | From the start, for every two distinct endpoints: the CONNECT arrives and waits, the LISTEN registers, the CONNECT resumes and registers, and the LISTEN has been told. |
| RelayLimits.ConnectionDecides | source/relay_server.cpp:831-841 | A connection becomes a fresh session if and only if fewer than 5000 sessions have not ended. |
| RelayLimits.QueueDecides | source/relay_server.cpp:383-400 | A send joins the queue of an open session and wakes its writer; the session is closed by it if and only if the queue comes to 512000 bytes of packets or more. |
| RelayLimits.PdpHeaderDecides | source/relay_server.cpp:583-610 | The header's bytes 10 to 13 are the size and 0 to 5 with 8 and 9 the target; above 20480 the session ends, otherwise that block is read or, if it is empty, forwarded. |
| RelayLimits.PtpHeaderDecides | source/relay_server.cpp:614-639 | The four bytes are the size; above 102400 the session ends. |
| RelayLimits.WriteFailureCloses | source/relay_server.cpp:657-663 | A write that fails closes the session and changes nothing else. |
| RelayLimits.NothingAfterClose | source/relay_server.cpp:642-665 | In every run: once a session is closed nothing more is sent to it, and at most the packet being written is still delivered. |
| RelayLimits.QueueCanBeDelivered | source/relay_server.cpp:642-665 | After every run the writer of an open session alone can deliver all that is queued, in order. |
| RelayWire.NoticeIsRead | source/relay_server.cpp:524-525 | A notice is six bytes of address, two zeros and the port; a reader of these offsets gets it back, and the bytes behind it. |
| RelayWire.PdpIsRead | source/relay_server.cpp:605-608 | The same for a PDP packet: address, two zeros, port, size, and the payload from byte 14. |
| RelayWire.PtpIsRead | source/relay_server.cpp:635-638 | The same for a PTP packet: size, and the payload from byte 4. |
| RelayWire.StreamRoundTrip | source/relay_server.cpp:642-665 | In every run the bytes written to a PDP, LISTEN or ACCEPT client read back as just the packets delivered; those written to a CONNECT's client if and only if the first packet is its peer's notice. |
| RelayGreeting.GreetingKept | source/relay_server.cpp:635-638 | While every CONNECT was told of its peer first, a step keeps it so if and only if it does not forward a block to the name of a CONNECT whose holder is open and has no bond. |
| RelayGreeting.GreetedThroughout | source/relay_server.cpp:614-639 | The same over whole runs. |
| RelayGreeting.PunctualStreamsRead | source/relay_server.cpp:614-665 | Without such a block every client's bytes, a CONNECT's too, read back as just the packets delivered. |
| RelayMeeting.UnreadableConnect | source/relay_server.cpp:538-639 | From the start, for every two distinct endpoints: a run after which a CONNECT's client has got data before any notice, and its bytes do not read back. |
| RelayTheorems.AcceptIsGreetedFirst | source/relay_server.cpp:557-563 | The first packet of a registered ACCEPT is the notice about its peer. |
| RelayPorts.RegistrationNeedsFreePort | source/relay_server.cpp:485-502 | In all four modes, a step that registers a name puts the session in the index and its port in the directory if and only if nobody advertises the port; otherwise, still in that step, the session is finished, name and port are gone, and the peer is closed. |
| RelayPorts.ReplacementNeedsFreePort | source/relay_server.cpp:274-292 | With the name taken: the former holder is closed in any case; the new session takes its place if and only if the port is not advertised, and nobody is left otherwise. |
| RelayPorts.NobodyLeft | source/relay_server.cpp:437-454 | From the start: two PDP clients for one endpoint, after which index and directory are empty. |
| RelayPorts.AdvertisingKept | source/relay_server.cpp:485-502 | While everybody in the index is advertised, a step keeps it so if and only if it is no registration on a port in use that somebody else in the index has too, and does not finish a registered session whose port another holder has. |
| RelayPorts.EndsMeansFinishes | source/relay_server.cpp:567-640 | The guards by which a step ends a session (a failed read, an oversized or last block, its own queue overflowing, a wait without a bond) are exactly right: they hold if and only if the step finishes a session that was registered before. |
| RelayPorts.AdvertisedThroughout | source/relay_server.cpp:696-723 | The same over whole runs. |
| RelayPorts.UnadvertisedListener | source/relay_server.cpp:437-472 | From the start: LISTEN, CONNECT and ACCEPT on any two distinct endpoints, after which the LISTEN is in the index and its port in no directory. |
| RelayTheorems.BondingNeedsFreePort | source/relay_server.cpp:538-565 | An ACCEPT bonds if and only if an unestablished CONNECT holds the mirrored name and the ACCEPT's own port is not advertised; otherwise it finishes, and when only the port was in the way the CONNECT is closed. |
| RelayTheorems.NoBondWhileListenerIsAdvertised | source/relay_server.cpp:781-785 | LISTEN and ACCEPT share one port key: while the LISTEN is advertised its ACCEPT is refused. |
| RelayTheorems.ListenerLosesItsPort | source/relay_server.cpp:485-502 | Such a refusal takes the live, untouched LISTEN's port out of the directory. |
| RelayWitness.BondsHappen | source/relay_server.cpp:437-472 | For every two distinct endpoints: LISTEN registers, CONNECT registers, LISTEN leaves, ACCEPT bonds. |
| RelayWitness.InitRoundTrip | source/relay_server.cpp:110-117 | The 24 bytes of an init packet determine its type word and both endpoints. |
| RelayServers.RelaySession.Close | source/relay_server.cpp:414-424 | Closing is `Closed` of the old session; the second close does nothing. |
| RelayServers.RelaySession.QueueSend | source/relay_server.cpp:383-400 | The packet joins the queue and the count, the writer wakes, and reaching 512000 bytes closes the session. |
| RelayServers.RelaySession.Bond | source/relay_server.cpp:402-406 | The session becomes established and its wait ends. |
| RelayServers.RelaySession.Supersede | source/relay_server.cpp:408-412 | Superseded and closed, nothing else. |
| RelayServers.RelaySession.RunWriter | source/relay_server.cpp:642-665 | From the top of the writer's loop to its next suspension. |
| RelayServers.RelaySession.FinishWrite | source/relay_server.cpp:657-663 | A completed write adds exactly its packet's bytes to those sent, which are always the bytes of the packets delivered; a failed one closes the session. |
| RelayServers.FormatApart | source/relay_server.cpp:340-343 | Different names have different texts, so the string-keyed tables behave as tables keyed by names. |
| RelayServers.RelayServer.Find | source/relay_server.cpp:268-272 | The string lookup finds what the typed index holds, or nothing. |
| RelayServers.RelayServer.Add | source/relay_server.cpp:274-292 | On objects and string keys, `add` is the model's. |
| RelayServers.RelayServer.WakeWaiters | source/relay_server.cpp:286-291 | The loop signals every timer of the list once and drops the list. |
| RelayServers.RelayServer.Remove | source/relay_server.cpp:294-300 | The entry goes if and only if it is this very session. |
| RelayServers.RelayServer.AwaitSession | source/relay_server.cpp:311-326 | Up to its suspension: the timer joins the name's list. |
| RelayServers.RelayServer.LeaveWaiters | source/relay_server.cpp:328-334 | After it: the timer leaves the list, an empty list goes. |
| RelayServers.RelayServer.RegisterSelf | source/relay_server.cpp:485-502 | The index first, then the directory; true exactly when the port was free. |
| RelayServers.RelayServer.Finish | source/relay_server.cpp:696-723 | In place, `finish` is the model's. |
| RelayServers.RelayServer.EstablishConnect | source/relay_server.cpp:504-536 | In place, the part between the two waits of a CONNECT. |
| RelayServers.RelayServer.EstablishAccept | source/relay_server.cpp:538-565 | In place, refusal or bond, with both notices. |
| RelayServers.RelayServer.Dispatch | source/relay_server.cpp:437-479 | In place, the four modes and the unknown one; what they lead to is said of the step by `RegistrantBegins`, `ConnectDecides`, `BadInitEnds` and `LonelyAcceptEnds`. |
| RelayServers.RelayServer.PdpHeaderRead | source/relay_server.cpp:583-610 | An oversized PDP block ends the session; an empty one is forwarded at once. |
| RelayServers.RelayServer.PtpHeaderRead | source/relay_server.cpp:614-639 | The same for PTP blocks, to the peer. |
| RelayServers.RelayServer.BlockRead | source/relay_server.cpp:597-638 | A whole block goes to its target under the sender's own address, in the bytes that `PdpIsRead` and `PtpIsRead` read back. |
| RelayServers.RelayServer.Accept | source/relay_server.cpp:831-841 | A connection is taken unless 5000 sessions are active. |
| RelayServers.RelayServer.Handle | source/relay_server.cpp:427-723 | Every event, run in place, does exactly the model's step and keeps the invariant. |
| Packets.CheckProductCode | source/registry.cpp:50-59 | The loop accepts exactly nine capital letters or digits, characters 65 to 90 and 48 to 57. |
| Packets.CheckGroupName | source/registry.cpp:61-76 | The loop accepts exactly the names whose text before the first NUL is letters and digits, characters 97 to 122 among them. |
| Packets.CheckLogin | source/registry.cpp:78-94 | A login needs a valid code, an address that is neither zero nor broadcast, and a name. |
| Packets.LexEncode | source/session.cpp:112-188 | Every command, written with the protocol's bytes 0, 1, 2, 3, 4 and 7, is read as that command, whatever follows it. |
| Packets.LexDecides | source/session.cpp:112-188 | Nothing else is: the front is malformed if and only if its first byte is none that is due, and is waited for if and only if a command that is due is shorter than its 144, 9 or 65 bytes; whatever is taken off is a command's bytes. |
| Packets.LexIsStable | source/session.cpp:112-184 | More bytes behind a command do not change what the front of the buffer is. |
| Packets.DecodeEncode | source/protocol.hpp:88-133 | The bytes of a packet determine it and where it ends. |
| Packets.StreamRoundTrip | source/session.hpp:51-58 | From the bytes of a whole stream a client recovers exactly the packets queued. |
| GameInvariant.RemoveFirstSet | source/registry.cpp:96-102 | Of a list without repetition, `vector_remove` takes exactly the one element. |
| GameInvariant.RemoveFirstSeniority | source/registry.cpp:96-102 | What is left keeps its order of joining. |
| GameInvariant.DeliverAllAt | source/registry.cpp:258-264 | Every session on the list but the skipped one gets the packet once, nobody else does. |
| GameInvariant.GreetAt | source/registry.cpp:222-228 | Each member is introduced to the newcomer once, bystanders are not. |
| GameInvariant.GreetSelf | source/registry.cpp:222-228 | The newcomer is introduced to each member once, in their order. |
| GameGraph.LoginGraph | source/registry.cpp:164-184 | Logging in keeps lists and back-pointers in agreement. |
| GameGraph.RegroupGraph | source/registry.cpp:214-236 | So does every change of one group's list that fits who is in it, an emptied group being erased. |
| GameGraph.LogoutGraph | source/registry.cpp:133-142 | So does leaving a game, the emptied game being destroyed. |
| GameGraph.GroupsKeepGameAlive | source/registry.cpp:380-385 | While a game has a group, somebody who stays is playing it. |
| GameViews.JoinViews | source/registry.cpp:222-236 | After a join everybody's view is again the addresses of the others in the group. |
| GameViews.LeaveViews | source/registry.cpp:250-264 | After a leave too. |
| GameViews.JoinOrdered | source/registry.cpp:230-231 | Players stand in the order in which they joined. |
| GameHandlers.IntroduceJoins | source/registry.cpp:222-236 | The loop, the new member and the BSSID packet together are one introduction each way and the first member's address. |
| GameHandlers.DispatchSound | source/registry.cpp:150-358 | Every handler keeps graph, views and seniority. |
| GameHandlers.ReapSound | source/registry.cpp:122-148 | So does the end of a session, which leaves it without game and group. |
| GameReader.ParseAppend | source/session.cpp:93-195 | The parse of more bytes takes up where the parse of the first ones stopped. |
| GameReader.ChunkingDoesNotMatter | source/session.cpp:102-109 | However a stream is cut into reads, it is worth the same. |
| GameReader.CommandsGrow | source/session.cpp:93-195 | More bytes never take a command back. |
| GameReader.DispatchAgrees | source/registry.cpp:150-358 | A handler accepts a command if and only if the session's own history does, and refuses without any effect. |
| GameReader.DrainParses | source/session.cpp:112-190 | The inner loop obeys exactly the commands that the parse of the buffer finds, closes exactly when it says so, and changes others by packets only. |
| GameRuns.StepKeeps | source/session.cpp:93-195 | Every event keeps the invariant of the hub. |
| GameRuns.RunKeeps | source/session.cpp:93-195 | So does every run. |
| GameRuns.ReapCounted | source/registry.cpp:145-147 | The end of a session gives back one connection, and there is one to give. |
| GameTheorems.UsersExactlyOnce | source/registry.cpp:160-184 | A session is on a game's list once if its game is that game, and not at all otherwise. |
| GameTheorems.PlayersExactlyOnce | source/registry.cpp:214-236 | The same for groups, whose players all play the group's game. |
| GameTheorems.NothingDangles | source/registry.cpp:122-148 | No empty game or group outlives a step, names are valid, back-pointers lead to nodes that exist, and an ended session is on no list. |
| GameTheorems.DestroyedGameIsEmpty | source/registry.cpp:380-385 | A game is destroyed only with its last user, and then it has no groups. |
| GameTheorems.ConnectionCountIsExact | source/registry.cpp:113-120 | The counter is the number of sessions let in and not ended, at most 1024. |
| GameTheorems.CountGuardNeverActs | source/registry.cpp:145-147 | The guard against counting below zero never has to act. |
| GameTheorems.GroupViewAgrees | source/registry.cpp:194-279 | In every run, what an open member was sent since it joined (CONNECT adds an address, DISCONNECT takes one occurrence away) amounts to exactly the addresses of the others in its group. |
| GameTheorems.GroupViewFromBytes | source/session.hpp:51-58 | The client can tell this from the bytes alone. |
| GameOutbox.ReceivedIsPrefix | source/session.cpp:198-220 | In every run what was written to a client is a prefix of what was queued for it, at most one packet more is in flight, and the bytes read as just those packets. |
| GameOutbox.WriterSleepsWhenDone | source/session.cpp:203-208 | No lost wake-up: the writer sleeps only while the session is open and everything is written. |
| GameOutbox.CaughtUpMemberSeesGroup | source/session.cpp:198-220 | So a member whose writer sleeps has received exactly the addresses of the others in its group. |
| GameTheorems.ReaderRefinesParse | source/session.cpp:93-195 | In every run the accepted commands, the decision to close, the phase and the rest in the buffer are those of the parse of the session's bytes; if it was closed from outside while open, the accepted commands are a prefix of the parse's. |
| GameTheorems.OnlyTheBytesMatter | source/session.cpp:93-195 | Two sessions sent the same bytes, in any pieces and any company, were obeyed alike. |
| GameTheorems.BufferHasRoom | source/session.cpp:97-101 | An open session waits with fewer than 144 bytes in its buffer. |
| GameTheorems.BufferIsNeverFull | source/session.cpp:97-101 | So the branch for a full buffer is never taken. |
| GameTheorems.FrontIsLongestStanding | source/registry.cpp:308-316 | The first player of a group has been in it longest. |
| GameTheorems.StoredNameRoundTrip | source/registry.cpp:61-76 | A group's name survives being sent in a scan packet, and is then a valid name to join. |
| GameTheorems.ScanIsComplete | source/registry.cpp:296-324 | A scan reports each group of the game exactly once, with its first member's address, and then says it is complete. |
| GameTheorems.ScanThenConnectAgree | source/registry.cpp:296-324 | The two in a row: after a scan, a connect with any name it reported joins behind that group's members and is told the address that the scan reported. |
| GameTheorems.ChatReachesTheOthers | source/registry.cpp:326-358 | When a member's chat command is carried out, the message reaches each other open member of the group once, nobody else, and not its sender. |
| GameReader.ParseEncoded | source/session.cpp:112-184 | The bytes of a list of commands are read as that list if every command is in its turn, and otherwise as those before the first that is not, where the session is closed. |
| GameReader.OrderlyIsAccepted | source/session.cpp:112-184 | Every command is in its turn if and only if the first, and no other, is a valid login, joins (with valid names) and scans come when the client has left as often as it joined, and leaves and chats when it has joined once more. |
| GameEnds.OrderlyClientIsServed | source/session.cpp:93-195 | In every run: a client that sent just these commands, in any pieces, was obeyed in all of them and stays open if and only if each was in its turn, and otherwise in those before the first that was not. |
| GameCommands.LoginArrives | source/registry.cpp:150-192 | A step that completes the 144 bytes of a valid login puts the client last on the list of the game its code is linked to, under its name and address, and sends nobody anything. |
| GameCommands.ConnectArrives | source/registry.cpp:194-248 | One that completes the 9 bytes of a connect puts the client last on the group's list; each member is sent its name and addresses, and it each member's, in order, and then the first one's hardware address; nobody else is sent anything. |
| GameCommands.DisconnectArrives | source/registry.cpp:281-294 | One that completes byte 3 takes the client off its group's list, leaves it open, and sends each other member its address once. |
| GameCommands.ScanArrives | source/registry.cpp:296-324 | One that completes byte 4 sends the client a report of each group of its game, once, with the group's name and its first member's hardware address, and then that this was all. |
| GameCommands.ChatArrives | source/registry.cpp:326-358 | One that completes the 65 bytes of a chat sends each other open member of the group exactly the text under the sender's name, and nobody else anything. |
| GameCommands.PingArrives | source/session.cpp:134-137 | One that completes byte 0, after login, does nothing. |
| GameEnds.RefusedEnds | source/session.cpp:114-194 | One that completes a command out of its turn, or one with an invalid name or code, ends the session. |
| GameEnds.ReaderStops | source/session.cpp:97-194 | So does a read that fails, and a read that finds the session closed. At every such end the session is closed, off every list and out of the count, and the others in its group are sent its address once. |
| GameEnds.OutsideCloses | source/session.cpp:69-80 | A close from outside, or a write that fails, closes the session and changes nothing else until its reader notices. |
| GameEnds.OpenDecides | source/registry.cpp:113-120 | A connection becomes a fresh session if and only if fewer than 1024 have not ended. |
| GameEnds.ShutdownArrives | source/registry.cpp:360-378 | The first shutdown sends every open member of a group the announcement once, its text in a field of zeros and under no name, and nobody else anything; a second does nothing. |
| GameEnds.NothingAfterClose | source/session.cpp:198-220 | In every run: once a session is closed nothing more is queued for it or taken from its queue, and at most the packet being written is still delivered. |
| GameEnds.QueueCanBeDelivered | source/session.cpp:198-220 | From every reachable state the writer of an open session alone can deliver all that is queued, in order. |
| GamePieces.ReadsCompose | source/session.cpp:93-195 | Two reads, one after the other, leave the whole hub as one read of the same bytes does: every list, and every packet that anybody is sent. |
| GameIdentity.BytesDecideThePlace | source/session.cpp:112-184 | A session's group, name and hardware address are what its accepted commands say, and so what its bytes say. |
| GameIdentity.EveryMemberWasIntroduced | source/registry.cpp:222-228 | Since it joined, an open member was sent every other member's name, hardware address and address. |
| GameWitness.GroupsHappen | source/registry.cpp:150-248 | Any two clients can come to be in one group. |
| GameServers.UserSession.SendBytes | source/session.cpp:59-66 | The bytes join the queue unless the session is closed. |
| GameServers.UserSession.Close | source/session.cpp:69-80 | Closed, nothing else. |
| GameServers.UserSession.ConsumeRx | source/session.cpp:83-90 | The loop moves the rest of the buffer to its front; nothing of it is lost or changed. |
| GameServers.UserSession.Fill | source/session.cpp:103-109 | A read's bytes stand behind those that were there. |
| GameServers.UserSession.Front | source/session.cpp:113-184 | The branches of the reader see in the array what `Lex` says of its bytes. |
| GameServers.UserSession.RunWriter | source/session.cpp:198-213 | From the top of the writer's loop to its next suspension: it stops, sleeps, or takes the front packet. |
| GameServers.UserSession.FinishWrite | source/session.cpp:211-218 | A completed write adds exactly its packet to the bytes sent, and the loop goes on; a failed one closes the session. |
| GameServers.Registry.SendEach | source/registry.cpp:258-264 | The sending loop over a list of objects. |
| GameServers.Registry.IntroduceEach | source/registry.cpp:222-228 | The loop of introductions over a list of objects. |
| GameServers.Registry.GameFor | source/registry.cpp:160-173 | The game is found, or created under its code. |
| GameServers.Registry.GroupFor | source/registry.cpp:214-220 | The group is found, or created under its name. |
| GameServers.Registry.HandleLogin | source/registry.cpp:150-192 | In place, on linked objects, the model's login, with the same answer. |
| GameServers.Registry.HandleConnect | source/registry.cpp:194-248 | The same for connect. |
| GameServers.Registry.LeaveGroup | source/registry.cpp:250-279 | The same for leaving a group, the emptied group being erased. |
| GameServers.Registry.HandleDisconnect | source/registry.cpp:281-294 | The same for disconnect. |
| GameServers.Registry.HandleScan | source/registry.cpp:296-324 | The same for scan, whatever the order of the table. |
| GameServers.Registry.HandleChat | source/registry.cpp:326-358 | The same for chat. |
| GameServers.Registry.QuitGame | source/registry.cpp:133-142 | The same for leaving a game, the emptied game being destroyed. |
| GameServers.Registry.CloseConnection | source/registry.cpp:122-148 | The same for the end of a session. |
| GameServers.Registry.BroadcastShutdown | source/registry.cpp:360-378 | The nested loops tell every member of every group once, in any order, and only the first call does. |
| GameServers.Registry.Open | source/registry.cpp:113-120 | A session is let in if fewer than 1024 are. |
| GameServers.Registry.ReadCommands | source/session.cpp:112-190 | The inner loop of the reader, on the buffer in place, is `Drain`. |
| GameServers.Registry.Activation | source/session.cpp:93-195 | From a completed read to the next suspension, or to the end. |
| GameServers.Registry.Handle | source/session.cpp:93-220 | Every event, run in place, does exactly the model's step and keeps the invariant. |
| Status.CountUser | source/status_server.cpp:122-130 | One user more: counted once, and entered in the one group that is the user's. |
| Status.BuildStatusGames | source/status_server.cpp:104-133 | The loop with its index tables makes what filters make: one game for each code, one group for each name, each with its users in order. |
| Status.UserCountIsSum | source/status_server.cpp:121-130 | A game's count is the sum of the sizes of its groups. |
| StatusTheorems.GrouplessIsNoGroup | source/status_server.cpp:111 | No group can have the name of the bucket: names have at most 8 bytes. |
| StatusTheorems.GroupShowsPlayers | source/status_server.cpp:124-130 | Under a group's name stand exactly its players, each once. |
| StatusTheorems.GrouplessShowsTheRest | source/status_server.cpp:111-124 | In the bucket stand exactly those who play without a group, each once. |
| StatusTheorems.GameShownRight | source/status_server.cpp:112-130 | Every game shown is one of the registry's, under its display name, counted as the registry lists it; its groups list sessions under their names up to the first NUL and with their hardware addresses. |
| StatusTheorems.EveryGameShownOnce | source/status_server.cpp:113-118 | Every game of the registry is shown exactly once. |
| StatusTheorems.EveryGroupShownOnce | source/registry.cpp:387-403 | Every group is shown exactly once and lists a permutation of its players. |
| Json.StringRoundTrip | source/status_server.cpp:46-81 | Reading an escaped string gives the string back, whatever its bytes, and ends at the right quotation mark (section 7 of RFC 8259). |
| Json.NumberRoundTrip | source/status_server.cpp:144 | A printed number has no leading zeros and reads back (section 6 of RFC 8259). |
| Json.ValueRoundTrip | source/status_server.cpp:149-214 | Any printed value reads back and leaves what stood behind it (sections 4 and 5 of RFC 8259). |
| StatusPage.PageRoundTrip | source/status_server.cpp:149-214 | From the page's bytes a reader gets the whole tree of games, groups, users and ports back. |
| StatusPage.AppendJsonEscaped | source/status_server.cpp:46-81 | The loop appends the escaped text. |
| StatusPage.AppendPortArray | source/status_server.cpp:135-147 | The loop appends the items of the port array, commas between them. |
| StatusPage.AppendUser | source/status_server.cpp:190-204 | One user object, with the directory's ports or with none; `PageIsRead` says what it shows. |
| StatusPage.AppendGroup | source/status_server.cpp:178-207 | One group object with its users. |
| StatusPage.AppendGame | source/status_server.cpp:164-210 | One game object with its groups. |
| StatusPage.AppendPage | source/status_server.cpp:149-214 | The whole page is the JSON text of its tree. |
| StatusReader.PageIsRead | source/status_server.cpp:149-214 | Read by the names of its keys, the page shows each game's name, count and code, each group's name and size, and each user's name, with exactly the address's PDP ports under "pdp_ports" and exactly its PTP ports under "ptp_ports", each list increasing. |
| StatusServers.SnapshotForStatus | source/registry.cpp:387-403 | The nested loops over the registry's objects give the model's snapshot. |
| StatusServers.BuildStatusJson | source/status_server.cpp:149-214 | The page's bytes read back as the regrouped snapshot, and show each user with exactly the ports that the directory advertises for its address, by kind. |

## Left out

- Sockets, the event loop, coroutines and their memory: only the completions they deliver and the atomic stretches between suspensions are modelled.
- Clocks: a timer is an event that may happen; the watchdog, the remaining init time and the five-second limits appear only as the freedom to close or time out at any moment.
- The product database: its crosslink is any function, and may answer differently from one command to the next; unknown products are not recorded.
- The order of hash tables: any order that meets every key once.
- The program's start and end, its arguments, signals and file permissions (`source/main.cpp`), logging and peer labels, UTF-8 conversion, HTTP, exceptions and allocation failure.
- The accept loops, except that a game session follows one successful `try_open_connection` and a relay session needs fewer than 5000 active ones.
- A second relay: the relays on TCP and on a local socket have registries of their own but share one directory; one relay with its directory is modelled.
- The integer width of the counters and of the queued bytes: they are proved to stay within small bounds, and never to go below zero.
- The byte order of sizes and ports on the wire: little-endian; sizes are copied through unchanged. The init type is read as an unsigned word, which decides the same branch.
- The bytes of a header that ends its relay session by being oversized are not part of that session's recorded input.
- RelayServers.RelayServer.RegisterSelf: sets the session's fields together before the tables; within one step nobody can see the difference.
- GameServers.Registry.Join: does not repeat the test for an empty player list before the BSSID packet, since the newcomer has just been put on it.
- `await_session` with a timeout of zero is the flag `inTime` of the init event.
