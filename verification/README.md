# GoodLink: models and proofs

This project models the parts of GoodLink that carry real concurrent, arithmetic or protocol content,
and proves what they promise:

- **UDP sending** (`udpbatch`): `UdpBatch`, `Socket`, `WindowsWriter`, `LinuxWriter`, `Coalesce` and
  `CoalesceMachine`. Datagrams are grouped into segmented sends, with partial writes and fallbacks; a
  queue with a sender goroutine on demand sits on top. What goes out is what single sends would have sent.
- **Forwarding** (`proxy`): `ForwardManager` reconciles listeners with rules; `UdpSessions` and
  `UdpSessionMachine` are the session table of a UDP listener; `Framing` is datagrams over a stream.
- **Rendezvous** (`pro`): `Rendezvous`, two parties and one shared record.
- **Process supervision** (`ui2/start.go`): `Supervisor` and `SupervisorMachine`.
- **STUN** (`stun2`): `StunCodec` and `Decimal`.
- **Configuration and upgrade** (`config`, `ui2/upgrade.go`): `UiConfig`, `Text`, `UpgradeSwap`.

Objects that the program updates in place are classes here, and the loops are loops, proved against
functions or predicates on values. Where goroutines meet, the same functions are the steps of a state
machine: one step is one region under a lock (or one system call, one wake-up, one goroutine start), a
run is any sequence of enabled steps, and the invariants are proved for every run.

What the environment may do: a single datagram goes out whole or not at all; a segmented send that took
n > 0 bytes emits those bytes cut at the segment size, and none for n <= 0; a stream hands over its bytes
in any pieces and may end anywhere; writes to the shared record may be lost and the record may expire at
any time; renames, copies and removals may fail at any time, a rename all or nothing; goroutines, wake-ups
and timers come in any order. Map iteration order, random ids and operating-system results are arbitrary.

Where the code does less than one might expect, the model follows the code and says exactly when it does it. A
readBack that ends drops whatever session its client has now (`StaleReader`, `TakesOnlyItsOwn`). A stop is heard
only while the process is marked as started, so it can be lost before an automatic restart (`StopLostInWindow`);
`UnheardStop` and `StopExact` say over all runs when a successor can still come. The decimal reader of the STUN
server does not understand a sign (`ReadsBack`), and Local and Remote agree on the transport only if Remote's
setting is already in normal form (`SameTransport`).

## Model

| member | source | states |
|---|---|---|
| UdpBatch.GroupRun | udpbatch/udpbatch.go:35-59 | The group is the longest prefix that one segmented send can carry: one address, equal lengths with a last one that may be shorter but not empty, total within the cap; no longer prefix would do |
| UdpBatch.UsoGroupOK | udpbatch/udpbatch.go:63-81 | True exactly for groups of that shape, over all indices at once |
| UdpBatch.CoveredExactly | udpbatch/udpbatch.go:85-97 | The covered count is the one number d for which the first n bytes end inside or at the end of datagram d - 1 |
| UdpBatch.CutWhole | udpbatch/batch_windows.go:116-134 | Cutting the concatenation of a group every seg bytes gives back exactly its datagrams |
| UdpBatch.CutPrefix | udpbatch/batch_windows.go:124-142 | Cutting only the first n bytes gives the covered datagrams, the last one possibly short |
| UdpBatch.ClippedLast | udpbatch/batch_windows.go:135-142 | After a partial write only the last covered datagram can be truncated, by exactly the bytes past n |
| UdpBatch.ClippedCarries | udpbatch/batch_windows.go:135-142 | Every covered datagram went to its address, whole or as a non-empty prefix, and all but the last whole |
| WindowsWriter.EmittedAll | udpbatch/batch_windows.go:128-134 | A segmented send that took nothing put nothing on the wire; one that took all put the group there |
| WindowsWriter.WrotePartial | udpbatch/batch_windows.go:135-142 | A partial segmented send counts as the covered datagrams, none of them twice and one cut short at most, none if it stopped on a boundary |
| WindowsWriter.WroteExactly | udpbatch/batch_windows.go:77-99 | With nothing cut short, what was handed over is exactly the first n datagrams |
| WindowsWriter.Writer.WriteEach | udpbatch/batch_windows.go:159-166 | The first n datagrams are on the wire in order, and the error is nil exactly if that is all, and otherwise that of the send that failed |
| WindowsWriter.Writer.Gather | udpbatch/batch_windows.go:114-122 | The reused scratch buffer holds the concatenation |
| WindowsWriter.Writer.SendGroup | udpbatch/batch_windows.go:124-127 | USO is given up exactly when the socket refuses it, and on no other failure |
| WindowsWriter.Writer.WriteUncovered | udpbatch/batch_windows.go:137-142 | After a partial send only datagrams from the covered count on are sent again |
| WindowsWriter.Writer.WriteUSO | udpbatch/batch_windows.go:108-143 | A group ends up on the wire up to the returned count, whatever the segmented send took |
| WindowsWriter.Writer.WriteFront | udpbatch/batch_windows.go:80-89 | With USO the longest group in front goes out by one segmented send, if it has two datagrams or more |
| WindowsWriter.Writer.WriteBatch | udpbatch/batch_windows.go:77-99 | The wire gains one datagram for each message up to the returned count, in order, to its address; without a torn send exactly those messages; nil error exactly if all were handed over, and otherwise the error of the one send that failed |
| LinuxWriter.Writer.WriteSameFamily | udpbatch/batch_linux.go:91-127 | The wire gains exactly the first `sent` datagrams of the run |
| LinuxWriter.Writer.WriteBatch | udpbatch/batch_linux.go:52-81 | The wire gains exactly the first `sent` datagrams in order, across families; only addresses of the socket's family reach sendmmsg, and nothing else if all are; an error is that of the send that failed, or a short write |
| Coalesce.CoalesceConn.TryWrite | udpbatch/batch_windows.go:269-291 | It waits exactly if 256 are queued, the connection is open and nothing fatal is noted; it is refused exactly with the fatal error or, without one, once closed; otherwise the datagram is queued last, and a sender lives and is woken; a refused buffer is put back |
| Coalesce.CoalesceConn.TryIdleExit | udpbatch/batch_windows.go:353-362 | The sender ends exactly if nothing is queued on an open connection, with a broadcast |
| Coalesce.CoalesceConn.PopBatch | udpbatch/batch_windows.go:364-385 | The oldest 64 or all are taken off the queue, the rest stays in order; it ends exactly if closed with nothing queued |
| Coalesce.CoalesceConn.Note | udpbatch/batch_windows.go:415-422 | The first fatal error stays |
| Coalesce.CoalesceConn.CloseMark | udpbatch/batch_windows.go:294-301 | Closing twice is closing once |
| Coalesce.CoalesceConn.ReleaseBatch | udpbatch/batch_windows.go:424-429 | Every buffer of the batch is put back once, in order |
| Coalesce.CoalesceConn.WriteRound | udpbatch/batch_windows.go:389-406 | One call releases exactly what was handed over and decides what is next |
| Coalesce.CoalesceConn.WriteAll | udpbatch/batch_windows.go:387-413 | Each buffer of the batch is released exactly once over all retries; datagrams are given up only if the last call failed fatally or all three failed; what was handed over is a prefix; a fatal failure is noted and nothing else is |
| CoalesceMachine.InvStep | udpbatch/batch_windows.go:261-429 | Every step keeps: one sender exactly when the flag says so, queue within 256 and never without a sender, timer armed at every select; every buffer in exactly one pair of hands; accepted = settled ++ in flight ++ queue; no sleeper misses its wake-up |
| CoalesceMachine.EveryRun | udpbatch/batch_windows.go:261-429 | These hold in every interleaving of writers, sender and closers |
| CoalesceMachine.Admission | udpbatch/batch_windows.go:269-291 | In every reachable state a WriteTo with the lock waits, is refused or is accepted under exactly these conditions, and an accepted datagram is the last one accepted and queued |
| CoalesceMachine.IdleExitExact | udpbatch/batch_windows.go:326-330 | The sender ends on its timer exactly if nothing is queued on an open connection |
| CoalesceMachine.TakeExact | udpbatch/batch_windows.go:364-385 | It takes the oldest 64 or all, for writing or, after a fatal error, for release |
| CoalesceMachine.WriteAnswers | udpbatch/batch_windows.go:389-412 | After a write: done, the socket gone and the rest given up, or the rest tried again, three times in all |
| CoalesceMachine.NoteAnswers | udpbatch/batch_windows.go:402-422 | The first fatal error noted stays and the rest of its batch is given up |
| CoalesceMachine.CloseAnswers | udpbatch/batch_windows.go:294-311 | Close marks the connection, then sleeps while a sender lives and returns when none does |
| CoalesceMachine.ReleaseExact | udpbatch/batch_windows.go:226-230 | A buffer goes back to the pool exactly if it has the pool's size |
| CoalesceMachine.CanDeliver | udpbatch/batch_windows.go:320-351 | From any reachable state without a fatal error the sender can put every open datagram on the wire, whole and in order, by its own steps: all it takes is that its writes succeed |
| CoalesceMachine.DeliveredInOrder | udpbatch/batch_windows.go:284-291 | What leaves is a subsequence of what was accepted, in order, none twice, with the callers' bytes |
| CoalesceMachine.CloseIsFinal | udpbatch/batch_windows.go:294-311 | After a Close has returned the queue is empty, no sender lives and nothing is accepted or sent, for ever |
| CoalesceMachine.OwnWrite | udpbatch/batch_windows.go:387-413 | Every buffer still has exactly one owner after a write of any outcome |
| CoalesceMachine.OrderWrite | udpbatch/batch_windows.go:390-413 | A write settles a prefix of the batch as sent, and the rest only as the retry rule allows |
| CoalesceMachine.OrderTake | udpbatch/batch_windows.go:364-385 | Popping keeps the line of open datagrams; after a fatal error they are given up |
| CoalesceMachine.SleepStep | udpbatch/batch_windows.go:270-272 | Who sleeps in WriteTo or Close still has a reason to |
| CoalesceMachine.SenderNeverStuck | udpbatch/batch_windows.go:320-351 | A live sender can always take a step |
| CoalesceMachine.SenderStepWorks | udpbatch/batch_windows.go:320-413 | Every step of it but an idle wake-up uses up work |
| CoalesceMachine.SenderDrains | udpbatch/batch_windows.go:320-351 | Left alone it finds nothing queued after a bounded number of steps |
| CoalesceMachine.ClosedBounded | udpbatch/batch_windows.go:294-311 | On a closed connection the sender takes a bounded number of steps, in any interleaving with writers and closers |
| CoalesceMachine.ClosedSenderEnds | udpbatch/batch_windows.go:302-309 | It can always run to its end by itself, and then every Close that has closed the socket can return |
| CoalesceMachine.IdleMeansSettled | udpbatch/batch_windows.go:340-343 | A wake-up that finds nothing means every accepted datagram has its fate |
| ForwardManager.Manager.Open | proxy/forward_mgr.go:140-150 | A listener is made only at a free place, every protocol but 0x01 being TCP, and what fails leaves nothing behind |
| ForwardManager.Manager.CloseUnwanted | proxy/forward_mgr.go:95-101 | Exactly the unwanted listeners are closed, before anything is opened |
| ForwardManager.Manager.KeepOne | proxy/forward_mgr.go:105-132 | A healthy wanted runner stays and serves the new target; a failed one is replaced by a new, healthy one that listens again, or is dropped with a fault |
| ForwardManager.Manager.KeepWanted | proxy/forward_mgr.go:103-132 | The kept entries serve their rules; no runner is a failed one; none is missing without a fault; no healthy address is listened on again |
| ForwardManager.Manager.AddMissing | proxy/forward_mgr.go:134-156 | In any order every missing key gets a listener, or all those made in this round are closed again; it fails only for a place held by an outsider or the builtin proxy or meant by another wanted key too, or by a fault |
| ForwardManager.Manager.Wanted | proxy/forward_mgr.go:85-88 | Of several rules for one key the last is wanted |
| ForwardManager.Manager.Apply | proxy/forward_mgr.go:78-160 | As `Applied` says: entries serve the wanted rules, healthy runners are kept by identity, failed ones are replaced by new ones that listen again, no entry's runner is a failed one, on failure only kept and rebuilt entries remain, and only addresses without a healthy runner are listened on; it fails only as AddMissing does; a closed manager does nothing; the manager stays consistent |
| ForwardManager.AppliedExactly | proxy/forward_mgr.go:134-159 | Success without a fault leaves exactly the wanted keys |
| ForwardManager.AppliedAgain | proxy/forward_mgr.go:103-132 | Applying to healthy entries that already are the wanted ones opens nothing and changes nothing |
| ForwardManager.Manager.StartBuiltin | proxy/forward_mgr.go:164-212 | The builtin proxy listens at the preferred address or, if that cannot be had, at a free port; one that is there stays; a closed manager refuses |
| ForwardManager.Manager.StopBuiltin | proxy/forward_mgr.go:215-224 | The builtin listener is closed and no entry is touched |
| ForwardManager.Manager.SetQuic | proxy/forward_mgr.go:226-237 | Every listener follows the manager's tunnel and nothing else changes; a closed manager keeps none |
| ForwardManager.Manager.Close | proxy/forward_mgr.go:250-265 | No listener stays open, and the manager stays closed |
| ForwardManager.Manager.OneOwner | proxy/forward_mgr.go:24-30 | Every open listener belongs to exactly one entry or the builtin slot, and uses the manager's tunnel; no two entries have the same address, UDP or not |
| UdpSessions.RemoveOne | proxy/proxy_l.go:334-342 | Taking a key out takes exactly its session out |
| UdpSessions.InsertOne | proxy/proxy_l.go:403 | Registering adds exactly one session |
| UdpSessions.TickTakesIdle | proxy/proxy_l.go:438-458 | A tick takes the sessions idle for over a minute and no others, and ends the sweeper exactly on an empty table |
| UdpSessions.ForwardUDPClient.EvictOldest | proxy/proxy_l.go:419-431 | In any iteration order a session leaves that none is older than |
| UdpSessions.ForwardUDPClient.SweepTick | proxy/proxy_l.go:439-453 | The loop is the step `Tick` |
| UdpSessions.ForwardUDPClient.DropSession | proxy/proxy_l.go:334-342 | The key's session is out and closed, whichever it is |
| UdpSessions.ForwardUDPClient.CloseAllSessions | proxy/proxy_l.go:324-332 | The table is empty and exactly its sessions are closed |
| UdpSessions.ForwardUDPClient.NewSession | proxy/proxy_l.go:384-416 | The key has a session and the table is within 1024, at the cost of the oldest one only when it was full; a sweeper is started exactly when none was marked |
| UdpSessionMachine.InvStep | proxy/proxy_l.go:313-478 | Every step keeps the invariants of the next five rows |
| UdpSessionMachine.EveryRun | proxy/proxy_l.go:313-478 | They hold in every interleaving |
| UdpSessionMachine.OnePlace | proxy/proxy_l.go:313-342 | An open session is in the table under one key or in one closer's hand, never both; a closed one is nowhere, and its stream was closed once |
| UdpSessionMachine.TableBounded | proxy/proxy_l.go:393-416 | At most 1024 sessions, all open, each with its own readBack running or about to |
| UdpSessionMachine.SweeperAlive | proxy/proxy_l.go:404-412 | A table that is not empty has exactly one sweeper, running or about to start |
| UdpSessionMachine.KeyFree | proxy/proxy_l.go:387-403 | Serve never finds its key registered by somebody else and never overwrites a session, across the eviction gap too |
| UdpSessionMachine.SweepExact | proxy/proxy_l.go:433-458 | A tick leaves a session in the table exactly if the run opened it or wrote to it within the last minute; the others go into the sweeper's hand |
| UdpSessionMachine.LastUseRecorded | proxy/proxy_l.go:291-311 | In every run the recorded time is that of the last opening or write while open, whatever else happened since |
| UdpSessionMachine.WriteKeepsAlive | proxy/proxy_l.go:291-304 | After a write to an open session no tick in any run of the next minute takes it |
| UdpSessionMachine.HeldCanClose | proxy/proxy_l.go:313-322 | Whoever holds a session taken out can close it right away |
| UdpSessionMachine.CloseWorks | proxy/proxy_l.go:313-322 | Closing a held session closes it and its stream once, and leaves it nowhere |
| UdpSessionMachine.WriteAnswered | proxy/proxy_l.go:524-526 | A write that fails, or finds the session closed, makes Serve take the client's session out and close it; one that succeeds leaves everything in place |
| UdpSessionMachine.IdleSessionsEnd | proxy/proxy_l.go:433-458 | A session used no more can be swept and closed a minute later |
| UdpSessionMachine.FullTableMakesRoom | proxy/proxy_l.go:393-403 | In a full table the new session takes the place of one that none is older than, which is closed |
| UdpSessionMachine.ServeReturns | proxy/proxy_l.go:484-528 | Until it stops Serve gets back to its next datagram by a bounded number of its own steps |
| UdpSessionMachine.ServeNeverStuck | proxy/proxy_l.go:350-431 | Until it stops Serve can go on or close what it took out; a full table always has an oldest session |
| UdpSessionMachine.StaleReader | proxy/proxy_l.go:461-462 | A concrete run in which the end of an old readBack takes out the client's new session |
| UdpSessionMachine.TakesOnlyItsOwn | proxy/proxy_l.go:334-342 | The end of a readBack takes only its own session exactly when nobody else has its key now |
| Rendezvous.SameTransport | pro/comm.go:120-126 | Both ends use one transport exactly when Remote's raw setting is a known name, and Local takes quic exactly for that name in any case and with spaces around it |
| Rendezvous.GetUDPAddr | pro/comm.go:262-308 | The first usable of five rounds decides; port 0 is never returned |
| Rendezvous.EveryRun | pro/local.go:159-239 | Every run of both parties keeps the invariants of the next rows |
| Rendezvous.RecordOrder | pro/remote.go:173-224 | The record goes 1, 2, then 3 or 4, or is -1, across lost writes and expiry; -1 only if the versions do not agree, 1 only if they do and Remote has an address |
| Rendezvous.NeverTakenBack | pro/comm.go:180-198 | In no continuation is a state taken back, and after 3, 4 or -1 none is added, across lost writes and expiry |
| Rendezvous.OneWriter | pro/local.go:192-236 | At most one party may write or delete the record at any moment |
| Rendezvous.OutcomeTold | pro/remote.go:100-124 | 3 is written only in runs in which Remote's tunnel connected, 4 only in runs in which the wait timed out |
| Rendezvous.TunnelAfterSuccess | pro/local.go:222-227 | Local returns a tunnel only after Remote's tunnel connected and Remote wrote 3, with both ends started and Remote's permission for the proxy |
| Rendezvous.LocalFollows | pro/local.go:195-235 | Where Local goes after reading the record depends only on the states written: it waits after 1, 2, answers after 1, cleans up after -1, returns its tunnel after 1, 2, 3 and leaves otherwise |
| Rendezvous.RemoteFollows | pro/remote.go:176-223 | And so does Remote: it waits after 1, decides after 1, 2, serves after 3, and leaves when there is no record |
| Rendezvous.LocalCleansUp | pro/local.go:64-96 | When Local gives up, or versions or NATs do not fit, it leaves no record behind |
| Rendezvous.LostWrites | pro/comm.go:180-198 | A lost write leaves the record as it was, and its writer goes on as after any other |
| Rendezvous.ClaimedOnce | pro/comm.go:155-176 | A claim takes the registration away, with Local's address exactly if Local connects actively |
| Rendezvous.Complementary | pro/remote.go:56-75 | In a session that reaches state 2 the roles are opposite exactly if Local's address is not the zero one, and the transports are the same exactly if Remote's setting is a known name |
| Rendezvous.NoHopelessStart | pro/local.go:90-96 | With NAT4 at both ends nobody calls Start and state 2 is never reached |
| Rendezvous.CanSucceed | pro/remote.go:85-124 | Some run connects both exactly when the versions agree, Remote has an address and not both are NAT4 |
| Rendezvous.RunLocal | pro/local.go:376-446 | Local gives up after the first fifteen attempts in a row without a tunnel, and stops at the first error |
| Supervisor.Services.RegisterProcess | ui2/start.go:177-188 | Only this service's entry changes: next generation, process, flag and pid file at once |
| Supervisor.Services.StopService | ui2/start.go:63-77 | Only this service's entry is cleared, and its process is handed over to be killed |
| Supervisor.Services.StopAll | ui2/start.go:40-53 | Every entry is cleared and exactly the current processes are killed |
| Supervisor.Services.JudgeExit | ui2/start.go:373-387 | Only the waiter of the current generation changes anything; a restart is due exactly if the flag and autoRestart were up |
| SupervisorMachine.InvStep | ui2/start.go:160-428 | Every step keeps the invariants of the next rows |
| SupervisorMachine.EveryRun | ui2/start.go:160-428 | They hold in every interleaving |
| SupervisorMachine.NeverOverwrites | ui2/start.go:231-240 | The flag is up exactly when a process is current, and a start never replaces one that was not stopped |
| SupervisorMachine.OnlyOwnGeneration | ui2/start.go:369-390 | A waiter of an older generation changes nothing; the current one leaves nothing started |
| SupervisorMachine.WaitedOnce | ui2/start.go:339-340 | Every process is waited for once and has at most one automatic successor, after it has ended |
| SupervisorMachine.FlagComesDown | ui2/start.go:376-381 | While the flag is up, the waiter that clears it has still to judge |
| SupervisorMachine.PidFileExact | ui2/start.go:183-187 | Until StopCmdProcess is called, the pid file exists exactly while a process is current and names it |
| SupervisorMachine.PidFileAfterStop | ui2/start.go:40-61 | Through any run between the two halves of StopCmdProcess: once the pid files are removed, the file is right exactly if nothing is started at that moment, as when nothing was registered in between, and it stays right |
| SupervisorMachine.StopWorks | ui2/start.go:343-365 | From every reachable state with something started and no stop on its way, the steps of a stop leave nothing started, no restart to come, and the old process to be killed |
| SupervisorMachine.StopNotLost | ui2/start.go:343-365 | Whatever comes in between, these steps stay possible until they are taken, and stop what is current then |
| SupervisorMachine.StopEverythingWorks | ui2/start.go:40-53 | So does the first half of StopCmdProcess, at once |
| SupervisorMachine.DisarmedStaysDown | ui2/start.go:357-365 | Once disarmed, a service has no automatic successor until the user starts it again |
| SupervisorMachine.StopExact | ui2/start.go:357-365 | When a stop has cleared autoRestart, some run without a new start by the user still gives an automatic successor exactly if an automatic start is past its check |
| SupervisorMachine.UnheardStop | ui2/start.go:343-355 | HandleStop with nothing started changes nothing, and some run without the user then gives an automatic successor exactly if a restart looms: one is past its check, or autoRestart is up and a restart is pending or checking, or a start by the user is past arming |
| SupervisorMachine.CalmStays | ui2/start.go:402-417 | Where no restart looms none ever does, in any run without the user |
| SupervisorMachine.StopLostInWindow | ui2/start.go:402-417 | A concrete run in which a stop before an automatic restart is lost and the service comes back |
| Decimal.Itoa | stun2/svr.go:440-461 | The loop gives the decimal text |
| Decimal.ReadPort | stun2/svr.go:365-368 | The loop gives the value of any text, character by character |
| Decimal.ReadsBack | stun2/svr.go:365-368 | The loop inverts itoa exactly for numbers that are not negative |
| StunCodec.XorTwice | stun2/svr.go:314-324 | XOR with the same key twice gives the value back |
| StunCodec.GetStunIpPort5 | stun2/cli.go:31-100 | On any bytes it never leaves the buffer; answer and buffer afterwards are those of `Decode` |
| StunCodec.GetStunIpPort4 | stun2/cli.go:102-134 | On any bytes, with the 16-bit wrap of the padding, the walk ends and never leaves the buffer; answer and buffer are those of `LookUp` |
| StunCodec.Addresses2 | stun2/cli.go:210-223 | The three lookups on one buffer, each on what the one before left |
| StunCodec.WalkFindsFirst | stun2/cli.go:111-131 | Where a well-formed padded list stands first the walk finds its first attribute of the type, and goes on behind it if there is none |
| StunCodec.WalkOnCut | stun2/cli.go:111-133 | Of a list that is cut anywhere the walk finds the first attribute of the type that is there in full, or nothing |
| StunCodec.DecodeFound | stun2/cli.go:53-84 | An address is found exactly if its attribute is whole and long enough for its family, with a key if it is masked |
| StunCodec.MaskedByHeader | stun2/svr.go:314-348 | Addresses are masked with the message's own cookie and transaction id, byte by byte |
| StunCodec.XorHarmless | stun2/cli.go:210-218 | On any bytes up to 64 KB the XOR in place changes no other lookup's answer |
| StunCodec.ResponseShape | stun2/svr.go:219-257 | The response is a well-formed list behind a header with the message type, the cookie, the transaction id and a length field that counts the list, FINGERPRINT included; the fingerprint is taken over all before it |
| StunCodec.ResponseGivesAddress | stun2/svr.go:260-353 | Through MAPPED-ADDRESS and through XOR-MAPPED-ADDRESS the client gets the address and port as they are, for every address, port and transaction id; an IPv6 address that stands for an IPv4 one comes back as that one |
| StunCodec.ResponseGivesChanged | stun2/svr.go:356-409 | The changed address comes through in the same sense if it could be parsed, and is not found otherwise |
| StunCodec.ClientUnderstandsServer | stun2/cli.go:207-223 | The client's whole reading of a response gives both addresses |
| Framing.RoundTrip | proxy/proxy_io.go:121-153 | Any list of datagrams up to 65535 bytes comes out again in order |
| Framing.FrameLayout | proxy/proxy_io.go:126-131 | On the wire a frame is the length, high byte first, and the datagram |
| Framing.Truncated | proxy/proxy_io.go:137-153 | A stream cut anywhere gives exactly the complete frames, then an error |
| Framing.CompleteExact | proxy/proxy_io.go:137-153 | The complete frames are the largest number that fits |
| Framing.Source.ReadFull | proxy/proxy_io.go:139-151 | Over any fragmentation, all bytes or the right error |
| Framing.ReadFrame | proxy/proxy_io.go:137-153 | Over any fragmentation the reader does what `Parse` says |
| Framing.WriteFrame | proxy/proxy_io.go:121-133 | One frame is appended, or a part of it if the write failed; what is too large is refused before anything is written |
| Framing.RelayOut | proxy/proxy_io.go:165-181 | Exactly the non-empty frames are sent as datagrams, in order, up to the first send that fails |
| Framing.RelayIn | proxy/proxy_io.go:184-200 | Exactly the non-empty datagrams are framed, in order, up to the first write that fails |
| Framing.ReceiveHead | proxy/proxy_r.go:44-97 | The head decides the action, and the stream is left right behind it |
| Framing.HeadRoundTrip | proxy/proxy_l.go:372-376 | Protocol, address and port come out of the 7 bytes as they went in |
| Framing.TcpReaches | proxy/proxy_r.go:67-77 | A TCP stream is dialled to the address asked for except for port 13389, and 1080 when the proxy is allowed |
| Framing.Forth | proxy/proxy_l.go:368-381 | Local to Remote, with the datagrams Serve writes: the address asked for is dialled, and a prefix of the client's non-empty datagrams is sent, all of them if no write failed |
| Framing.Back | proxy/proxy_l.go:461-478 | Remote to Local through readBack: the client gets a prefix of the non-empty answers, all of them if no write failed |
| Framing.Session | proxy/proxy_r.go:97-106 | Both directions of one UDP session from end to end, over any fragmentation; everything gets through exactly if no write or send failed |
| UiConfig.NormalizeName | config/uiconfig.go:275-297 | The default name is the first free one, found within as many steps as there are used names; a given name is kept or refused |
| UiConfig.NamesMean | config/uiconfig.go:300-307 | Mode and transport are understood in any case and with spaces around; blank means tun and kcp |
| UiConfig.NormalizeRules | config/uiconfig.go:314-341 | All rules have their normal form with distinct listeners, or exactly if that cannot be the list is refused, and a list is its own result exactly if it is in that form |
| UiConfig.NormalizeMode | config/uiconfig.go:299-343 | Mode, transport and rules are normal, or the named one is wrong |
| UiConfig.AllocateTunIP | config/uiconfig.go:404-417 | The least segment from 19 to 254 that no service has, or none if there is none |
| UiConfig.CheckListens | config/uiconfig.go:251-259 | Accepted exactly if no listener of an earlier forwarding service is used |
| UiConfig.NormalizeAddress | config/uiconfig.go:240-259 | A blank address gets the least free segment; addresses are valid and distinct as texts |
| UiConfig.NormalizeService | config/uiconfig.go:207-238 | One service in normal form with id, name and key of its own; one that is so already is unchanged; a refusal has its cause in the service or in what those before it use |
| UiConfig.AddService | config/uiconfig.go:206-260 | A service that passes the checks is distinct from all before it in every respect |
| UiConfig.CompatibleAccepts | config/uiconfig.go:206-260 | A service that is distinct from those before it passes the checks |
| UiConfig.Config.KeepOneAutoStart | config/uiconfig.go:261-271 | Only the first service that wants to start by itself keeps its wish |
| UiConfig.Config.NormalizeAndValidate | config/uiconfig.go:192-273 | Success leaves a canonical list: ids, names, non-empty keys, tunnel addresses and forwarded listeners pairwise distinct, one automatic start at most; a canonical list passes unchanged; blank ids, names and addresses get the random id, the first free default name and the least free segment; an error names a service that has no normal form, or clashes with one before it, or finds no free segment |
| UiConfig.Config.NormalizeTwice | config/uiconfig.go:192-273 | A second run after a success succeeds and changes nothing |
| UpgradeSwap.FileSystem.RetryRename | ui2/upgrade.go:526-536 | Renamed within 25 attempts, or nothing changed after 25 failures |
| UpgradeSwap.FileSystem.ReplaceFile | ui2/upgrade.go:502-524 | The new file is in use with what was there as .old, or what was there is in use, unless the rollback fails; its contents are never lost; it is done unless renames and copies fail |
| UpgradeSwap.FileSystem.ApplyZip | ui2/upgrade.go:412-430 | Both files new with what was there as .old, or all that was there in use again, unless a rollback fails; nothing is lost even then; it is done unless renames and copies fail; also when the library was not there before |
| UpgradeSwap.FileSystem.ApplyProgramOnly | ui2/upgrade.go:402-429 | Without a library in the archive the library is not touched |

## Left out

- `netstack`, `winipcfg`, `tls2`, `utils`, the user interface and its HTTP handlers, UPnP: operating-system and library calls.
- `goodlink/tun`, `goodlink3`, `go2` and `proxy/handle` are not part of this model: hole punching and encryption are arbitrary outcomes, distinct session ids give distinct records.
- WriteTo for addresses that are not UDP addresses, which bypasses the queue; short writes of one datagram; the layout of control messages; socket options.
- CoalesceMachine: WriteBatch is one step of the machine; while it runs its sender holds the batch alone, and other goroutines touch only the queue. Its contract is the one proved for `WindowsWriter.Writer.WriteBatch`.
- CoalesceMachine.SenderDrains: counts the sender's own steps, as the two rows after it do; that it gets to run, and how long a write takes, is not modelled.
- ForwardManager: runners are values in a map, not objects; wildcard addresses that overlap with others, and port 0 in a rule, are not modelled; resolving an address is part of `Open`.
- ForwardManager.Manager.StartBuiltin: whether the random port could be 1080 is left to the operating system.
- UdpSessionMachine: a stream's contents are in `Framing`; which tunnel and target a new session uses is not recorded, as no claim about it holds across SetQuicConn.
- UdpSessions.ForwardUDPClient.NewSession: states the region without interference; the interleavings are in `UdpSessionMachine`.
- Rendezvous: one session and one Remote for a key; the delete that follows the claim takes effect; the registration loop that waits for an earlier session, and everything after a tunnel is up, are left out.
- Rendezvous: the polling loops of the two parties are steps of one machine, not loops over their variables, so that every interleaving with lost writes and expiry is covered.
- Rendezvous.RunLocal: a stop from outside ends it earlier; the set-up of forwarding is left out.
- SupervisorMachine: one service, whose id is not deleted and used again; process numbers are not reused; pid files are written and removed without failure; status texts are left out.
- SupervisorMachine.PidFileExact: nothing is claimed once StopCmdProcess has been called, because it removes pid files outside the lock.
- StunCodec.XorHarmless: for buffers over 64 KB nothing is claimed; the client's buffer has 1024 bytes.
- StunCodec: parsing an address text and CRC-32 are parameters; the server's table of transactions, which only feeds a log line, is left out.
- Framing: idle timers and the closing of both ends are left out; a socket's read buffer is as large as any datagram.
- UiConfig: address parsing and printing are parameters with a round-trip law; lower-casing is on ASCII letters; random ids are any trimmed text that is not blank; a list has fewer than 10^29 services. Tunnel addresses are distinct as texts only, two texts can still mean one segment.
- UiConfig.Config.NormalizeAndValidate: what a failed run leaves in the service that failed is not stated.
- UpgradeSwap: unpacking and checking the archive, self-update and restart are left out; what a failed copy leaves in the place of a file that was not there before is not stated.
- The relay of TCP streams, mapping clean-up, logging, wall-clock latency.
