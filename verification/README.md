# Bluetooth audio and device management in BlueZ's `android/` directory: a verified model

BlueZ 5.19 contains, under `android/`, a Bluetooth daemon for Android. This project models its
parts with deep state and long runs, and proves what they keep:

- **AVDTP signalling** (`avdtp.c`): messages are fragmented into packets and reassembled
  (section 8.4 of AVDTP 1.3); requests wait in two queues behind at most one that is outstanding;
  stream end points (SEPs), streams and sessions point at each other while streams are configured,
  opened, started, closed, aborted or lost; end points of the peer are discovered.
- **AVCTP** (`avctp.c`): a queue, one request in flight, interim replies, 4-bit labels.
- **The device store** (`bluetooth.c`): bonded and cached devices, mirrored in two key files.
- **GATT** (`gatt.c`): connections of applications to devices, and the cached characteristics.
- **A2DP** (`a2dp.c`): the choice of an SBC configuration.

## Layout

| file | models |
|---|---|
| `Prelude.dfy` | bytes, options, sequences with elements removed or read in order |
| `AvdtpFragmentation.dfy` | sender and receiver of signalling messages, as functions and on their buffers |
| `AvdtpRequests.dfy` | the request machine of a session: two lanes, one outstanding request |
| `AvdtpObjects.dfy` | sessions, streams, SEPs and requests, and the value of their pointers |
| `AvdtpRuns.dfy` | every change of these pointers, and histories of them |
| `AvdtpEngine.dfy` | requests, state changes and the loss of the connection, on the objects |
| `AvdtpInitiator.dfy`, `AvdtpReplies.dfy` | cancelling, aborting, closing, configuring; replies and timers |
| `AvdtpAcceptor.dfy` | the commands of the peer and the transport channels, on the objects |
| `AvdtpTransport.dfy`, `AvdtpPeer.dfy` | which SEPs may carry media, over runs; that the handlers do such runs |
| `AvdtpRegistry.dfy`, `AvdtpDiscovery.dfy`, `AvdtpCapabilities.dfy` | SEPs and SEIDs; discovery; capability lists |
| `AvctpLabels.dfy`, `AvctpChannel.dfy` | the choice of a label; a channel |
| `DeviceStore.dfy` | the adapter's devices |
| `GattConnections.dfy`, `GattCharacteristics.dfy` | connection counting; characteristic ranges and the cursor |
| `SbcNegotiation.dfy` | presets and their narrowing |

Code that updates objects in place is modelled by classes with the same fields, whose methods are
proved against functions on values; the theorems are about these functions and their runs. The AVDTP
objects are tied to a ghost value, the `World`, and each handler says how it changes that value, and
that the change extends the history of the world: so what is proved of all histories is an invariant
of the objects.
What a socket, a timer, the kernel or the upper layer decides is a parameter (`ok`, `sent`, `hook`,
`failing`) or an event of a run.

## Where the code does less than it seems to

Each of these is stated exactly, as an equivalence or with a concrete run:

- A fragmented message whose rest fills whole packets announces one packet too many, and its last
  packet is refused; the receiver counts bytes in 8 bits, so longer messages than 255 do not survive.
- Requests can be left waiting with none outstanding, and an Abort that cancels goes past the queue.
- An Open command can name a SEP whose stream belongs to another session. That session then points at a
  stream it does not have, also after it was freed; nothing follows that pointer but comparisons.
- A configuration that the upper layer accepts only later can put a second stream into a SEP.
- Start and Suspend of several SEPs act on the first and reject the second.
- SEIDs repeat after a SEP other than the last was unregistered, and a 63rd SEP, with SEID 0x3F, is accepted.
- A channel that arrives after an Abort takes the SEP from ABORTING to OPEN; on the acceptor's side
  nothing else does.
- A failed discovery blocks all later ones until something ends a discovery; a reject that comes before
  that calls a null callback. An older Discover that outlived the loss of the connection can be rejected so.
- The choice of an AVCTP label overlooks one processed request.
- A key for a bearer that is paired already puts the device into the bonded list twice.
- A GATT device that connects while no application listens stays CONNECTED until an application connects to it.
- A client can walk through 255 characteristics of a service only.
- Serving one A2DP remote narrows what the next one is offered: a preset is lost to all remotes that have
  no bitpool in common with one it served.

## Model

| member | source | states |
|---|---|---|
| `AvdtpFragmentation.FragmentationRoundTrip` | raspi/bluez/bluez-5.19/android/avdtp.c:463-555 | For every message of any length, every MTU of at least 3 and every idle receiver: what `avdtp_send` puts on the wire is received as FRAGMENT, ..., SUCCESS with the low 4, 2 and 6 bits of label, type and signal, and the same bytes, if and only if the length is at most 255 and either one packet suffices or the bytes START leaves over do not fill whole packets |
| `AvdtpFragmentation.FieldsRoundTrip` | raspi/bluez/bluez-5.19/android/avdtp.c:463-555 | Then, for a label below 16, a type below 4 and a signal below 64, the receiver ends with exactly the label, the type, the signal and the bytes of the message |
| `AvdtpFragmentation.WireHeaders` | raspi/bluez/bluez-5.19/android/avdtp.c:484-549 | The first byte of every packet on the wire has the label in bits 4-7, the type in bits 0-1 and between them 0, 1, 2 or 3 for SINGLE, START, CONTINUE, END; the signal is the second byte of a SINGLE and the third of a START packet |
| `AvdtpFragmentation.WireCount` | raspi/bluez/bluez-5.19/android/avdtp.c:503-515 | The second byte of a START packet is the announced number of packets, modulo 256 |
| `AvdtpFragmentation.DecodeFails` | raspi/bluez/bluez-5.19/android/avdtp.c:1838-1870 | A packet is too short for its header exactly below 2 bytes for a SINGLE and 3 for a START packet |
| `AvdtpFragmentation.PacketRoundTrip` | raspi/bluez/bluez-5.19/android/avdtp.c:1827-1951 | The same on packets, before they are encoded as bytes |
| `AvdtpFragmentation.WholeMultipleIsRefused` | raspi/bluez/bluez-5.19/android/avdtp.c:498-509 | In the excluded case up to 255 bytes every packet but END is taken as a fragment and END is refused as too early |
| `AvdtpFragmentation.AnnouncedCount` | raspi/bluez/bluez-5.19/android/avdtp.c:503-504 | START announces one packet more than follows exactly if the rest of the message fills whole packets |
| `AvdtpFragmentation.PacketsCarryMessage` | raspi/bluez/bluez-5.19/android/avdtp.c:510-550 | The payloads of the packets, in order, are the message |
| `AvdtpFragmentation.PacketsFillMtu` | raspi/bluez/bluez-5.19/android/avdtp.c:521-545 | No packet exceeds the MTU, and all but the last fill it |
| `AvdtpFragmentation.ReceiverAcceptsExactlyTrains` | raspi/bluez/bluez-5.19/android/avdtp.c:1827-1951 | An idle receiver answers a sequence of packets with FRAGMENT up to a final SUCCESS if and only if it is one complete message - a SINGLE packet, a START that announces no more, or START, CONTINUE ... and END of one label in the announced number - and each payload has room in the 1024-byte buffer behind the one-byte fill level |
| `AvdtpFragmentation.ReassemblyInOrder` | raspi/bluez/bluez-5.19/android/avdtp.c:1932-1950 | What is then in the buffer is the payloads in order, as long as they fit the one-byte fill level |
| `AvdtpFragmentation.DecodeEncode` | raspi/bluez/bluez-5.19/android/avdtp.c:466-497 | Reading the header fields of an encoded packet gives the packet back |
| `AvdtpFragmentation.Transport.AvdtpSend` | raspi/bluez/bluez-5.19/android/avdtp.c:463-555 | The sending loop, on the buffer it overwrites for each packet: if the socket takes everything, exactly the specified bytes went out; else a prefix of the packets did and the result is failure |
| `AvdtpFragmentation.Transport.ParseData` | raspi/bluez/bluez-5.19/android/avdtp.c:1827-1951 | The receiver, on the buffer it fills in place, does what `ParseBytes` says of the bytes read |
| `AvdtpRequests.EachRequestInOnePlace` | raspi/bluez/bluez-5.19/android/avdtp.c:2309-2372 | After every run from a new session an accepted request is outstanding, in one of the two queues, or freed: in exactly one of these, once; and it was transmitted at most once |
| `AvdtpRequests.RunConserves` | raspi/bluez/bluez-5.19/android/avdtp.c:2181-2188 | Conservation over every run of submissions, replies, cancellations and teardown, whatever transmission fails |
| `AvdtpRequests.AllFreedAtTheEnd` | raspi/bluez/bluez-5.19/android/avdtp.c:966-995 | When the session is freed exactly the accepted requests have been freed |
| `AvdtpRequests.StepOrder` | raspi/bluez/bluez-5.19/android/avdtp.c:2916-2938 | Sent-then-waiting keeps following the order of acceptance within each class exactly if the step transmits nothing past a waiting request of its class |
| `AvdtpRequests.StepAwake` | raspi/bluez/bluez-5.19/android/avdtp.c:2916-2938 | Requests are left waiting with nothing outstanding exactly by a reply whose successor cannot be sent while others wait, by teardown of the outstanding request, or by an Abort that cannot be sent |
| `AvdtpRequests.PriorityFirst` | raspi/bluez/bluez-5.19/android/avdtp.c:2924-2927 | While requests wait only behind an outstanding one, no normal request is transmitted while a priority request waits |
| `AvdtpRequests.SmoothRun` | raspi/bluez/bluez-5.19/android/avdtp.c:2309-2343 | Order and wake-ups over every run that meets neither exception |
| `AvdtpRequests.RunIsFifo` | raspi/bluez/bluez-5.19/android/avdtp.c:2309-2343 | Over every run in which no request overtakes its class, whatever fails, is cancelled or torn down: what was sent and then what waits is what was accepted, in order, without exactly the requests that left their queue unsent |
| `AvdtpRequests.StepFifo` | raspi/bluez/bluez-5.19/android/avdtp.c:2916-2938 | The same for one step, with the requests it loses: the head whose transmission fails, the queued ones of a freed stream, all when the session is freed |
| `AvdtpRequests.StrandedExample` | raspi/bluez/bluez-5.19/android/avdtp.c:778-838 | Two requests, the first dropped with its stream: the second waits with nothing outstanding |
| `AvdtpObjects.DetachAgree` | raspi/bluez/bluez-5.19/android/avdtp.c:840-923 | Freeing a stream by the move to IDLE keeps ownership and leaves nothing behind that points at it |
| `AvdtpObjects.DropNoDangling` | raspi/bluez/bluez-5.19/android/avdtp.c:758-838 | After the pending open, the outstanding request and the queues were cleaned, none points at the stream |
| `AvdtpObjects.DropExact` | raspi/bluez/bluez-5.19/android/avdtp.c:758-838 | That cleanup takes the stream out of the list, clears a pending open of it, frees the outstanding request of it unless that is an Abort, which loses its stream, and removes its requests from both queues; all others stay, in order |
| `AvdtpObjects.AttachAgree` | raspi/bluez/bluez-5.19/android/avdtp.c:1332-1336 | A new stream that enters a free SEP and its session keeps all pointers agreeing |
| `AvdtpObjects.AttachNeedsFreeSep` | raspi/bluez/bluez-5.19/android/avdtp.c:1332-1336 | A new stream that enters a SEP and its session keeps the pointers agreeing exactly if the SEP has none |
| `AvdtpObjects.ConfiguredAgrees` | raspi/bluez/bluez-5.19/android/avdtp.c:3118-3132 | The same when the configuring request is accepted before the stream enters, as `avdtp_set_configuration` does it |
| `AvdtpObjects.VacateNeedsFreeSep` | raspi/bluez/bluez-5.19/android/avdtp.c:668-696 | Freeing a stream that never entered its SEP keeps the pointers agreeing exactly if no other stream is in it |
| `AvdtpObjects.RelinkAgree` | raspi/bluez/bluez-5.19/android/avdtp.c:840-923 | A change of what a session holds, short of its streams, keeps the pointers agreeing exactly if nothing it holds points outside them |
| `AvdtpObjects.SetOpeningAgree` | raspi/bluez/bluez-5.19/android/avdtp.c:1510-1511 | A session may wait for any live stream: ownership, and what a session points at of its own, keep agreeing |
| `AvdtpObjects.ForeignOpenDangles` | raspi/bluez/bluez-5.19/android/avdtp.c:1510-1511 | SEPs are shared by all sessions, so an Open command can name the stream of another one: exactly then the session waits for a stream it does not have, and points at it after it was freed |
| `AvdtpObjects.FreeSessionOwned` | raspi/bluez/bluez-5.19/android/avdtp.c:966-995 | Freeing a session keeps ownership exactly if the SEPs of the streams it still has are IDLE |
| `AvdtpObjects.LostIsTotal` | raspi/bluez/bluez-5.19/android/avdtp.c:1006-1021 | After the loss of a connection the session has no streams, pending open or request of a stream; every SEP it held is IDLE, unused and free; other sessions and their SEPs are unchanged |
| `AvdtpObjects.DetachOneMore` | raspi/bluez/bluez-5.19/android/avdtp.c:946-956 | Freeing streams one after another, in any order, amounts to freeing the set of them |
| `AvdtpObjects.FirstByRseid` | raspi/bluez/bluez-5.19/android/avdtp.c:639-652 | A stream before which none has its remote SEID is the one that SEID finds |
| `AvdtpObjects.FirstBySeid` | raspi/bluez/bluez-5.19/android/avdtp.c:1049-1061 | The same for SEPs and their SEIDs |
| `AvdtpRuns.HistorySound` | raspi/bluez/bluez-5.19/android/avdtp.c:840-923 | In every world that a history of changes leads to, of any number of sessions, the pointers agree and no session loses, duplicates or resends a request |
| `AvdtpRuns.NothingDangles` | raspi/bluez/bluez-5.19/android/avdtp.c:758-923 | In every such world the stream of the outstanding request, those of queued requests and, if it belongs to the session, the pending open are live streams of the session, never freed ones; a pending open of another session is the exception (`ForeignOpenDangles`) |
| `AvdtpRuns.OwnershipAgrees` | raspi/bluez/bluez-5.19/android/avdtp.c:668-696 | In every such world a SEP is in use iff it has a stream iff that stream is listed, once, by exactly one session and points back; a SEP without stream is IDLE |
| `AvdtpRuns.RequestsConserved` | raspi/bluez/bluez-5.19/android/avdtp.c:2309-2372 | In every such world each request a session accepted is outstanding, queued or freed, in exactly one place, once, and was transmitted at most once |
| `AvdtpRuns.ConfigureLeads` | raspi/bluez/bluez-5.19/android/avdtp.c:3118-3132 | Sending before attaching is attaching before sending, as far as histories go |
| `AvdtpEngine.Engine.ValidIsSound` | raspi/bluez/bluez-5.19/android/avdtp.c:840-923 | The engine keeps the history of its world, and every handler below extends it: so whatever handlers ran, the pointers of the objects agree and their sessions conserve requests |
| `AvdtpEngine.Engine.SafeObjects` | raspi/bluez/bluez-5.19/android/avdtp.c:719-745 | Transport safety of the world is that of the objects: every SEP that is OPEN or STREAMING has a stream that holds a channel |
| `AvdtpEngine.Engine.SendReq` | raspi/bluez/bluez-5.19/android/avdtp.c:2309-2343 | Queues behind an outstanding request, by priority, else transmits with the next 4-bit label |
| `AvdtpEngine.Engine.SendRequest` | raspi/bluez/bluez-5.19/android/avdtp.c:2345-2372 | Refuses requests to a stream being aborted, except Abort; else does the step `Submit` of the request machine |
| `AvdtpEngine.Engine.ProcessQueue` | raspi/bluez/bluez-5.19/android/avdtp.c:2916-2938 | Does the step `Process` of the request machine |
| `AvdtpEngine.Engine.CleanupQueue` | raspi/bluez/bluez-5.19/android/avdtp.c:758-776 | The two search-and-remove loops leave exactly the requests of other streams, in order |
| `AvdtpEngine.Engine.HandleUnansweredReq` | raspi/bluez/bluez-5.19/android/avdtp.c:778-838 | The outstanding request of the stream is freed; an Abort stays and loses its stream |
| `AvdtpEngine.Engine.StreamFree` | raspi/bluez/bluez-5.19/android/avdtp.c:668-696 | The SEP lets go of the stream, whose channel and event sources go |
| `AvdtpEngine.Engine.SetIdle` | raspi/bluez/bluez-5.19/android/avdtp.c:840-923 | The move to IDLE: the world changes by `Detach`, stays valid, and no event source of the stream is left |
| `AvdtpEngine.Engine.SetBusy` | raspi/bluez/bluez-5.19/android/avdtp.c:840-923 | The other moves: the state, and the flags each state resets |
| `AvdtpEngine.Engine.DelayReportTo` | raspi/bluez/bluez-5.19/android/avdtp.c:3296-3319 | Exactly when a delay report is sent, that its request is new and to this stream, what it does to the pointers, and when the delay is stored |
| `AvdtpEngine.Engine.AvdtpOpen` | raspi/bluez/bluez-5.19/android/avdtp.c:3143-3158 | An Open is sent exactly for a stream of the session that is IDLE or CONFIGURED and not being aborted; its request is new and to this stream |
| `AvdtpEngine.Engine.AvdtpStart` | raspi/bluez/bluez-5.19/android/avdtp.c:3175-3220 | Exactly when a Start is sent, as a new request, when the peer is waited for, and when neither |
| `AvdtpEngine.Engine.AvdtpSuspend` | raspi/bluez/bluez-5.19/android/avdtp.c:3253-3268 | A Suspend is sent, as a new request, exactly for a stream of the session that is STREAMING, CLOSING or ABORTING and neither to be closed nor aborted |
| `AvdtpEngine.Engine.ReleaseStream` | raspi/bluez/bluez-5.19/android/avdtp.c:946-956 | Releasing a stream of a session frees it |
| `AvdtpEngine.Engine.ConnectionLost` | raspi/bluez/bluez-5.19/android/avdtp.c:1008-1011 | The walk over a list whose nodes the callee unlinks frees every stream of the session: the world changes by `DetachMany` |
| `AvdtpInitiator.CancelRequest` | raspi/bluez/bluez-5.19/android/avdtp.c:2198-2298 | The outstanding request is freed; a new Abort to the stream its SEID names takes its place, ahead of all queues, exactly if there is such a stream, the signal is not one of the hopeless four and the transmission succeeds; else the connection is lost |
| `AvdtpInitiator.RequestTimeout` | raspi/bluez/bluez-5.19/android/avdtp.c:2300-2307 | A request that times out is cancelled, with the same target and SEID |
| `AvdtpInitiator.AvdtpAbort` | raspi/bluez/bluez-5.19/android/avdtp.c:3270-3294 | Exactly when an abort cancels the outstanding request, when it sends a new priority Abort, and when it is refused |
| `AvdtpInitiator.AvdtpClose` | raspi/bluez/bluez-5.19/android/avdtp.c:3222-3251 | A Close is sent exactly for a stream that is OPEN, STREAMING, CLOSING or ABORTING and not to be closed already, and marks it; when a close at once aborts instead, and when it is refused |
| `AvdtpInitiator.AvdtpSetConfiguration` | raspi/bluez/bluez-5.19/android/avdtp.c:3071-3141 | The new stream enters the session and the SEP exactly if its request was accepted; the pointers agree afterwards exactly if the SEP was free |
| `AvdtpInitiator.FindStreamByRseid` | raspi/bluez/bluez-5.19/android/avdtp.c:639-652 | The first stream of a session to a remote SEP |
| `AvdtpReplies.EnterConfigured` | raspi/bluez/bluez-5.19/android/avdtp.c:875-878 | The move to CONFIGURED, and the new delay report of a sink |
| `AvdtpReplies.SetConfigurationResp` | raspi/bluez/bluez-5.19/android/avdtp.c:2468-2482 | An accepted Set Configuration configures the SEP, and exactly when that reports the delay |
| `AvdtpReplies.OpenResp` | raspi/bluez/bluez-5.19/android/avdtp.c:2492-2504 | An accepted Open makes the session wait for the channel of that stream |
| `AvdtpReplies.StartResp` | raspi/bluez/bluez-5.19/android/avdtp.c:2506-2521 | An accepted Start streams, also if the peer was first |
| `AvdtpReplies.CloseResp` | raspi/bluez/bluez-5.19/android/avdtp.c:2523-2534 | An accepted Close closes the channel and moves to CLOSING |
| `AvdtpReplies.SuspendResp` | raspi/bluez/bluez-5.19/android/avdtp.c:2536-2548 | An accepted Suspend moves to OPEN |
| `AvdtpReplies.AbortResp` | raspi/bluez/bluez-5.19/android/avdtp.c:2550-2564 | An accepted Abort frees the stream while its own request is outstanding, which survives |
| `AvdtpReplies.AskCapabilities` | raspi/bluez/bluez-5.19/android/avdtp.c:2374-2427 | An accepted Discover queues one new capability request for each end point asked, in order, in the priority queue |
| `AvdtpReplies.Understand` | raspi/bluez/bluez-5.19/android/avdtp.c:2022-2049 | What each kind of reply does to the pointers, and that only a short reject or a rejected Abort loses the connection |
| `AvdtpReplies.SessionReply` | raspi/bluez/bluez-5.19/android/avdtp.c:2004-2068 | A reply counts exactly if label and signal are those of the outstanding request, its timer stops, it has the effect of its kind, and then that request is done and the next one goes out; a short reply or a rejected Abort loses the connection |
| `AvdtpReplies.StartTimeout` | raspi/bluez/bluez-5.19/android/avdtp.c:3160-3173 | When the peer does not start the stream it opened, the session does, exactly when it may, by a new request |
| `AvdtpReplies.StreamOpenTimeout` | raspi/bluez/bluez-5.19/android/avdtp.c:597-610 | The session stops waiting for a channel and aborts the stream: which stream and SEID the Abort names, when it takes the place of the outstanding request, and when the connection is lost |
| `AvdtpReplies.StreamCloseTimeout` | raspi/bluez/bluez-5.19/android/avdtp.c:584-595 | When the session closes the channel the peer was to close, media is left without a channel exactly if the SEP is OPEN or STREAMING by then |
| `AvdtpReplies.ParseStreamResp` | raspi/bluez/bluez-5.19/android/avdtp.c:2611-2643 | Each accepted request of a stream does to the pointers what its response handler does, and nothing else |
| `AvdtpAcceptor.TransportConnect` | raspi/bluez/bluez-5.19/android/avdtp.c:719-745 | The stream the session waits for takes the channel; the session waits no longer and the SEP is OPEN |
| `AvdtpAcceptor.FindLocalSep` | raspi/bluez/bluez-5.19/android/avdtp.c:1049-1061 | The first registered SEP with a SEID |
| `AvdtpAcceptor.SetconfCmd` | raspi/bluez/bluez-5.19/android/avdtp.c:1266-1349 | The error of each refused Set Configuration; the stream enters SEP and session, and is configured, exactly if there is no error, the upper layer accepts at once and that was transmitted |
| `AvdtpAcceptor.SetconfCb` | raspi/bluez/bluez-5.19/android/avdtp.c:1237-1264 | An acceptance that the upper layer reports later does the same, and keeps the pointers agreeing exactly if the SEP is still free then |
| `AvdtpAcceptor.OpenCmd` | raspi/bluez/bluez-5.19/android/avdtp.c:1472-1520 | The error of each refused Open; an accepted one makes the session wait for the stream of that SEP, of whatever session, and marks a collision |
| `AvdtpAcceptor.StartCmd` | raspi/bluez/bluez-5.19/android/avdtp.c:1522-1580 | The first SEID is looked up in every iteration: a Start of one OPEN SEP streams it and marks the stream; one of several is rejected with BAD_STATE for the second after the first was started; on any error of the first nothing moves; a collision is marked exactly if it moved |
| `AvdtpAcceptor.StreamErrorIs` | raspi/bluez/bluez-5.19/android/avdtp.c:1536-1556 | The error of a Start or Suspend on the objects: BAD_ACP_SEID for an unknown SEP or one without stream, BAD_STATE in any state but the expected one, OPEN for Start and STREAMING for Suspend |
| `AvdtpAcceptor.SuspendCmd` | raspi/bluez/bluez-5.19/android/avdtp.c:1633-1688 | The same for STREAMING to OPEN |
| `AvdtpAcceptor.CloseCmd` | raspi/bluez/bluez-5.19/android/avdtp.c:1582-1631 | An unknown SEP or one without stream is BAD_ACP_SEID, a SEP neither OPEN nor STREAMING is BAD_STATE, and else the hook decides: with none the SEP goes to CLOSING, before the response is sent; the timer starts once it was; a collision is marked |
| `AvdtpAcceptor.AbortCmd` | raspi/bluez/bluez-5.19/android/avdtp.c:1690-1718 | An unknown or unused SEP is ignored; the state changes exactly if the response was transmitted; the pending open stays |
| `AvdtpAcceptor.CheckCollision` | raspi/bluez/bluez-5.19/android/avdtp.c:1409-1470 | Exactly when the own outstanding request is marked as collided |
| `AvdtpAcceptor.EndCollision` | raspi/bluez/bluez-5.19/android/avdtp.c:1990-2002 | A collision ends the own request and sends the next |
| `AvdtpAcceptor.SetTransport` | raspi/bluez/bluez-5.19/android/avdtp.c:2873-2892 | Only the stream the session waits for gets a channel, and goes to OPEN from whatever state |
| `AvdtpAcceptor.TransportCb` | raspi/bluez/bluez-5.19/android/avdtp.c:698-717 | The loss of the channel frees the stream exactly if the session is not aborting it |
| `AvdtpTransport.AcceptorSafe` | raspi/bluez/bluez-5.19/android/avdtp.c:1472-1718 | Over every run of commands, channels and losses of channels, with no requests of its own, a SEP is OPEN or STREAMING only while its stream holds a channel |
| `AvdtpTransport.RunSafe` | raspi/bluez/bluez-5.19/android/avdtp.c:698-745 | Over every run, of whatever the session aborts itself, that is so in all states exactly if no event is the loss of the channel of a stream being aborted |
| `AvdtpTransport.StepSafe` | raspi/bluez/bluez-5.19/android/avdtp.c:698-745 | Each event keeps that exactly if it is not the loss of the channel of a stream the session itself aborts |
| `AvdtpTransport.StateTable` | raspi/bluez/bluez-5.19/android/avdtp.c:840-923 | The state of each SEP after each event of the acceptor: a Start takes OPEN to STREAMING, a Suspend STREAMING to OPEN, a Close OPEN or STREAMING to CLOSING, an Abort any SEP in use to ABORTING, and each leaves any other SEP in any other state; only an IDLE SEP is configured |
| `AvdtpTransport.RunFollowsTable` | raspi/bluez/bluez-5.19/android/avdtp.c:1472-1718 | Over every run of the acceptor each state of a SEP follows from the one before by that table |
| `AvdtpTransport.AbortDoesNotStopOpen` | raspi/bluez/bluez-5.19/android/avdtp.c:719-745 | An Abort accepted while a channel is awaited does not stop it: the SEP goes from ABORTING to OPEN |
| `AvdtpTransport.LeavesAborting` | raspi/bluez/bluez-5.19/android/avdtp.c:840-923 | On the acceptor's side a SEP goes from ABORTING to OPEN exactly by the channel for its stream, while its session waits for it |
| `AvdtpTransport.AbortedStaysAborted` | raspi/bluez/bluez-5.19/android/avdtp.c:840-923 | Over every run without such a channel an aborted stream stays in its SEP, ABORTING, until it is freed |
| `AvdtpPeer.PeerCommand` | raspi/bluez/bluez-5.19/android/avdtp.c:1953-2068 | Any command, whatever becomes of it, takes the objects through events of the acceptor, and keeps media on channels on the objects; a handler that fails loses the connection |
| `AvdtpPeer.ParseCmd` | raspi/bluez/bluez-5.19/android/avdtp.c:1775-1823 | Each command is events of the acceptor, and brings no SEP or stream but the configured one |
| `AvdtpPeer.ChannelUp` | raspi/bluez/bluez-5.19/android/avdtp.c:2873-2892 | A channel is taken exactly if the session of the stream waits for it, and keeps media on channels |
| `AvdtpPeer.ChannelDown` | raspi/bluez/bluez-5.19/android/avdtp.c:698-717 | The loss of a channel leaves media without one exactly if the session is aborting the stream and its SEP is OPEN or STREAMING |
| `AvdtpRegistry.RegisterSep` | raspi/bluez/bluez-5.19/android/avdtp.c:3321-3350 | A SEP is refused exactly if more than 0x3E are registered; its SEID is the length of the list plus one |
| `AvdtpRegistry.UnregisterSep` | raspi/bluez/bluez-5.19/android/avdtp.c:3352-3368 | The SEP leaves the list, then its stream, if any, is freed, then it is forgotten; the pointers keep agreeing |
| `AvdtpRegistry.SeidReuse` | raspi/bluez/bluez-5.19/android/avdtp.c:3330-3347 | After a SEP was unregistered the next SEID is new exactly if it was the last one |
| `AvdtpRegistry.DenseLookup` | raspi/bluez/bluez-5.19/android/avdtp.c:1049-1061 | As long as SEIDs are positions, each finds the SEP at its position |
| `AvdtpRegistry.NewSession` | raspi/bluez/bluez-5.19/android/avdtp.c:2085-2119 | A new session holds nothing |
| `AvdtpRegistry.DestroySession` | raspi/bluez/bluez-5.19/android/avdtp.c:966-995 | Freeing a session frees all its requests, exactly those accepted and not freed before, and releases the SEPs of its streams but not their state: the pointers agree afterwards exactly if these are IDLE |
| `AvdtpDiscovery.EachCallbackFiresOnce` | raspi/bluez/bluez-5.19/android/avdtp.c:925-944 | When the session is gone, exactly the callbacks that `avdtp_discover` took were called, in order and once each, whatever ended each discovery, in every run without a reject that finds the slot of a failed call |
| `AvdtpDiscovery.RunLinear` | raspi/bluez/bluez-5.19/android/avdtp.c:2978-3002 | At any time each callback taken was called once, except the one still owed; and the idle source has its slot, so it never runs without one |
| `AvdtpDiscovery.TimerHasRequest` | raspi/bluez/bluez-5.19/android/avdtp.c:2004-2068 | In every reachable state the request timer runs only for an outstanding request |
| `AvdtpDiscovery.SlotTaken` | raspi/bluez/bluez-5.19/android/avdtp.c:2978-3002 | In every reachable state the slot is taken exactly if a call found it free and nothing ended a discovery since, and without callback exactly if that call failed to send |
| `AvdtpDiscovery.RefusedExactly` | raspi/bluez/bluez-5.19/android/avdtp.c:2983-2984 | So a call is refused exactly then: a failed `avdtp_discover` blocks all others until something ends a discovery |
| `AvdtpDiscovery.CrashesExactly` | raspi/bluez/bluez-5.19/android/avdtp.c:2701-2718 | Over every run the source calls a null callback exactly by a reject of a Discover or capability request after such a failed call |
| `AvdtpDiscovery.CrashFree` | raspi/bluez/bluez-5.19/android/avdtp.c:2701-2718 | So a run crashes nowhere exactly if it has no such reject |
| `AvdtpDiscovery.CrashExample` | raspi/bluez/bluez-5.19/android/avdtp.c:2198-2298 | A run that crashes: a queued Discover outlives the loss of the connection by a timeout, the next call fails, and the old Discover is sent and rejected |
| `AvdtpDiscovery.EndsWithLastCapability` | raspi/bluez/bluez-5.19/android/avdtp.c:2579-2608 | In every reachable state a capability reply ends discovery exactly if no capability request waits any longer, although the source looks at the next request only: no other request gets between them |
| `AvdtpDiscovery.AnsweredKnown` | raspi/bluez/bluez-5.19/android/avdtp.c:2374-2412 | After a Discover response exactly those end points are known that were, or were reported not in use or in use by a stream of this session; the new ones come last and none is listed twice |
| `AvdtpDiscovery.AnsweredAsks` | raspi/bluez/bluez-5.19/android/avdtp.c:2404-2427 | Asked for capabilities are exactly the known ones among the reported, each time they are reported, in order, behind all other priority requests; discovery ends there exactly if there is none |
| `AvdtpDiscovery.LostExact` | raspi/bluez/bluez-5.19/android/avdtp.c:1006-1021 | The loss of the connection takes exactly the requests of streams out of the queues; those of discovery stay, in order |
| `AvdtpDiscovery.DroppedExact` | raspi/bluez/bluez-5.19/android/avdtp.c:758-838 | The end of a stream takes exactly its own requests, and tells discovery nothing |
| `AvdtpDiscovery.Discoverer.Discover` | raspi/bluez/bluez-5.19/android/avdtp.c:2978-3002 | Exactly when a call is taken, and how |
| `AvdtpDiscovery.Discoverer.DiscoverResp` | raspi/bluez/bluez-5.19/android/avdtp.c:2374-2427 | The loop over the end points reported: which become known and are asked, and that discovery ends there exactly if none is |
| `AvdtpDiscovery.Discoverer.CapabilitiesResp` | raspi/bluez/bluez-5.19/android/avdtp.c:2587-2607 | Discovery ends exactly if the next request is not one for capabilities |
| `AvdtpDiscovery.Discoverer.Finalize` | raspi/bluez/bluez-5.19/android/avdtp.c:925-944 | The owed callback is called and the idle source removed |
| `AvdtpDiscovery.Discoverer.DiscoverRej` | raspi/bluez/bluez-5.19/android/avdtp.c:2701-2718 | The owed callback is called; it crashes exactly if the slot has none |
| `AvdtpDiscovery.Discoverer.ProcessDiscover` | raspi/bluez/bluez-5.19/android/avdtp.c:2967-2976 | The idle source finds its slot and calls its callback |
| `AvdtpCapabilities.CapsToList` | raspi/bluez/bluez-5.19/android/avdtp.c:1099-1139 | For any bytes: re-serialising the list read gives a prefix of them, what is left is under two bytes or a truncated entry, the codec is the last media codec entry of at least two bytes, and delay reporting is set exactly if there is such an entry |
| `AvdtpCapabilities.ReadsOnce` | raspi/bluez/bluez-5.19/android/avdtp.c:1099-1139 | That determines the list |
| `AvdtpCapabilities.ReadsWhatWasWritten` | raspi/bluez/bluez-5.19/android/avdtp.c:1099-1139 | Reading the serialisation of a list gives the list, with nothing left |
| `AvdtpCapabilities.EntryAt` | raspi/bluez/bluez-5.19/android/avdtp.c:3099-3116 | On the wire the entries lie one behind the other: category, length, data |
| `AvdtpCapabilities.CopyCaps` | raspi/bluez/bluez-5.19/android/avdtp.c:3099-3116 | The request holds exactly the serialised list, in a buffer of exactly its size |
| `AvctpLabels.Choose` | raspi/bluez/bluez-5.19/android/avctp.c:1099-1117 | The loop of `pending_create` computes `Scan` |
| `AvctpLabels.ScanFinds` | raspi/bluez/bluez-5.19/android/avctp.c:1091-1130 | The label found is the first one free of the labels the scan looks at, which are all but one |
| `AvctpLabels.LabelClash` | raspi/bluez/bluez-5.19/android/avctp.c:1104-1114 | With at most 16 processed requests the new label is one of theirs exactly if it is the label of the request the scan skips |
| `AvctpLabels.NoClashWithOne` | raspi/bluez/bluez-5.19/android/avctp.c:1091-1130 | With at most one processed request there is no clash |
| `AvctpLabels.ClashExample` | raspi/bluez/bluez-5.19/android/avctp.c:1108-1113 | Processed labels 1 and 0 with 0 next give 1 |
| `AvctpChannel.NoLostWakeUp` | raspi/bluez/bluez-5.19/android/avctp.c:687-713 | In every reachable state of a connected channel, a queue with nothing in flight is about to be processed |
| `AvctpChannel.SentInOrder` | raspi/bluez/bluez-5.19/android/avctp.c:650-713 | Over every run the requests transmitted and then those still queued are those created, in order, without exactly the ones whose transmission failed or that were queued when the channel was destroyed: none leaves the queue otherwise, and none from behind another |
| `AvctpChannel.ProcessTakes` | raspi/bluez/bluez-5.19/android/avctp.c:687-713 | With nothing in flight, processing takes from the front of the queue the requests that fail and the first that does not, which goes in flight with a timer; nothing else moves |
| `AvctpChannel.StepAwake` | raspi/bluez/bluez-5.19/android/avctp.c:1205-1211 | The one exception the source guards against: a request on a browsing channel that is not watched; `avctp_connect_browsing` sets the watch at once, so no caller can make one |
| `AvctpChannel.EachRequestInOnePlace` | raspi/bluez/bluez-5.19/android/avctp.c:650-758 | Each request created is in exactly one of in flight, queue, processed, destroyed, once, and holds a timer exactly while in flight |
| `AvctpChannel.DestroyedExactlyOnce` | raspi/bluez/bluez-5.19/android/avctp.c:487-511 | When the channel is gone each request was destroyed exactly once |
| `AvctpChannel.LiveLabelsDistinct` | raspi/bluez/bluez-5.19/android/avctp.c:1091-1130 | Over runs with no processed request at any creation, the live requests have distinct labels exactly as long as there are at most 16 |
| `AvctpChannel.RunBlock` | raspi/bluez/bluez-5.19/android/avctp.c:687-713 | The labels of in-flight then queued requests are consecutive and end just before the counter |
| `AvctpChannel.NewLabelClash` | raspi/bluez/bluez-5.19/android/avctp.c:1091-1130 | In every reachable state: when a new label is that of a processed request, and that it never is with a single one |
| `AvctpChannel.ReplyToInFlight` | raspi/bluez/bluez-5.19/android/avctp.c:715-758 | A response with the label in flight goes to that request whatever is processed under the same label; it stays processed exactly if its callback wants more; nothing else moves |
| `AvctpChannel.ReplyToProcessed` | raspi/bluez/bluez-5.19/android/avctp.c:739-757 | Any other response goes to the request processed last under its label, or to none |
| `AvctpChannel.Channel.SendReq` | raspi/bluez/bluez-5.19/android/avctp.c:1132-1214 | Creating and queueing a request is the step `Create` |
| `AvctpChannel.Channel.ProcessQueue` | raspi/bluez/bluez-5.19/android/avctp.c:687-713 | The loop that pops until a transmission succeeds is the step `Process` |
| `AvctpChannel.Channel.ReqTimeout` | raspi/bluez/bluez-5.19/android/avctp.c:650-667 | A timeout destroys the request in flight with an error and schedules the queue; the queue, the processed requests and the label counter stay as they are |
| `AvctpChannel.Channel.Response` | raspi/bluez/bluez-5.19/android/avctp.c:715-800 | A response is the step `Respond` |
| `AvctpChannel.Channel.DestroyChannel` | raspi/bluez/bluez-5.19/android/avctp.c:487-511 | Destruction is the step `Destroy`: nothing stays in flight, queued, processed or scheduled |
| `DeviceStore.RunKept` | raspi/bluez/bluez-5.19/android/bluetooth.c:654-718 | From agreeing lists and files, over every run of found, pairing, key and unpair events without a repairing key: each known device is in exactly one list, once, is bonded iff paired on some bearer, and the key files hold exactly the addresses of the lists |
| `DeviceStore.StepKept` | raspi/bluez/bluez-5.19/android/bluetooth.c:654-718 | One event breaks that exactly if it is a key that changes the state of a bearer paired already, the other not being paired |
| `DeviceStore.RepairDuplicates` | raspi/bluez/bluez-5.19/android/bluetooth.c:669-673 | Then the device is prepended to the bonded list a second time |
| `DeviceStore.CacheIsLru` | raspi/bluez/bluez-5.19/android/bluetooth.c:365-389 | Caching puts the device in front of a list ordered by when each was last cached, and evicts exactly if full and new, and then the least recently cached |
| `DeviceStore.RunRecent` | raspi/bluez/bluez-5.19/android/bluetooth.c:365-389 | Over every such run the cache stays so ordered and within 300 entries |
| `DeviceStore.ReportedFlags` | raspi/bluez/bluez-5.19/android/bluetooth.c:654-718 | What a report makes of the flags of its device, spelled out for both bearers: which of pairing, paired and bonded are set as reported, and which are kept; no other device changes |
| `DeviceStore.UnpairsExactly` | raspi/bluez/bluez-5.19/android/bluetooth.c:654-718 | A paired bearer is unpaired by a report exactly if that says neither pairing nor paired and no pairing was going on |
| `DeviceStore.FoundExactly` | raspi/bluez/bluez-5.19/android/bluetooth.c:1470-1510 | A device found that is paired changes nothing; any other is first in the cache afterwards, with its flags as they were, or all clear if it is new |
| `DeviceStore.Adapter.CacheDevice` | raspi/bluez/bluez-5.19/android/bluetooth.c:365-389 | `cache_device` on the list, the devices and the file it updates |
| `DeviceStore.Adapter.FindDevice` | raspi/bluez/bluez-5.19/android/bluetooth.c:339-352 | A device is found exactly if one of the lists has it |
| `DeviceStore.Adapter.GetDevice` | raspi/bluez/bluez-5.19/android/bluetooth.c:421-434 | `get_device` |
| `DeviceStore.Adapter.UpdateState` | raspi/bluez/bluez-5.19/android/bluetooth.c:654-718 | `update_bredr_state` and `update_le_state`, with their two exceptions |
| `DeviceStore.Adapter.UpdateFoundDevice` | raspi/bluez/bluez-5.19/android/bluetooth.c:1470-1510 | A device found is known afterwards, and cached again unless paired |
| `DeviceStore.Adapter.DeviceStateEvent` | raspi/bluez/bluez-5.19/android/bluetooth.c:735-752 | The events that report a pairing state |
| `GattConnections.ConnectionsCounted` | raspi/bluez/bluez-5.19/android/gatt.c:1188-1262 | In every reachable state a device counts the connections that name it, connection numbers are distinct, a device waiting for a link has a connection, and no connection is told twice that it is gone |
| `GattConnections.RunCounted` | raspi/bluez/bluez-5.19/android/gatt.c:815-839 | The same as an invariant, with one reference for each connection, attempt and leak |
| `GattConnections.LinkLostState` | raspi/bluez/bluez-5.19/android/gatt.c:831-839 | When the link goes down the device is DISCONNECTED exactly if it had a connection |
| `GattConnections.DropAllExact` | raspi/bluez/bluez-5.19/android/gatt.c:831-839 | Destroying all connections that match leaves exactly those that do not, in order, and every device without a matching connection as it was |
| `GattConnections.LinkLostExact` | raspi/bluez/bluez-5.19/android/gatt.c:743-839 | The loss of a link ends exactly the connections of that device, and tells exactly these if it was CONNECTED; the others stay, in order, and so do all other devices |
| `GattConnections.UnregisterExact` | raspi/bluez/bluez-5.19/android/gatt.c:1225-1238 | Unregistering an application ends exactly its connections, untold; the others stay, in order, and so do the devices it has none to |
| `GattConnections.Survives` | raspi/bluez/bluez-5.19/android/gatt.c:743-839 | Over every run a connection is left exactly if no event ended it: the disconnection of its number, the end of its application, the loss of the link to its device |
| `GattConnections.OthersUntouched` | raspi/bluez/bluez-5.19/android/gatt.c:815-839 | An event that names neither a device nor a connection of it or an application with one to it leaves the device unchanged |
| `GattConnections.StuckUntilConnected` | raspi/bluez/bluez-5.19/android/gatt.c:4824-4856 | A device CONNECTED without connections stays so, refusing every link and whatever links are lost, over a run exactly if no application connects to it |
| `GattConnections.StepStuck` | raspi/bluez/bluez-5.19/android/gatt.c:4824-4856 | A device gets there exactly by a link accepted while no application listens |
| `GattConnections.ConnectingFrees` | raspi/bluez/bluez-5.19/android/gatt.c:815-829 | A connection made and ended brings it back to DISCONNECTED, where it takes the next link |
| `GattConnections.Gatt.DestroyConnection` | raspi/bluez/bluez-5.19/android/gatt.c:815-829 | The last connection of a device cleans it up |
| `GattConnections.Gatt.CreateConnection` | raspi/bluez/bluez-5.19/android/gatt.c:1188-1214 | A connection takes the next number, a count and a reference |
| `GattConnections.Gatt.HandleConnect` | raspi/bluez/bluez-5.19/android/gatt.c:1318-1353 | An application gets one connection to a device, which starts waiting for a link if disconnected |
| `GattConnections.Gatt.HandleDisconnect` | raspi/bluez/bluez-5.19/android/gatt.c:1373-1390 | The connection of that number is told and destroyed |
| `GattConnections.Gatt.AppDisconnectDevices` | raspi/bluez/bluez-5.19/android/gatt.c:1225-1238 | Exactly the connections of the application are destroyed, untold; the others stay, in order, and so do the devices they name alone |
| `GattConnections.Gatt.DeviceDisconnectClients` | raspi/bluez/bluez-5.19/android/gatt.c:743-839 | All connections of a device are told first, and then destroyed; all other connections stay, in order, and all other devices |
| `GattConnections.Gatt.LeDeviceFound` | raspi/bluez/bluez-5.19/android/gatt.c:930-945 | Only a device in CONNECT_INIT becomes ready |
| `GattConnections.Gatt.ConnectLe` | raspi/bluez/bluez-5.19/android/gatt.c:1039-1083 | One attempt at a time; a failed one keeps its reference |
| `GattConnections.Gatt.ConnectCb` | raspi/bluez/bluez-5.19/android/gatt.c:981-1037 | An attempt that ends in another state than CONNECT_READY keeps its reference too |
| `GattConnections.Gatt.ConnectEvent` | raspi/bluez/bluez-5.19/android/gatt.c:4786-4865 | An incoming link is refused unless the device is new or disconnected, and else connects each listening application |
| `GattCharacteristics.TilesIffRising` | raspi/bluez/bluez-5.19/android/gatt.c:2042-2088 | The cached ranges tile from the first handle to the end of the service, without gap or overlap, exactly if the handles rise and stay inside it |
| `GattCharacteristics.EachHandleOnce` | raspi/bluez/bluez-5.19/android/gatt.c:2072-2079 | Then each handle in between belongs to exactly one characteristic |
| `GattCharacteristics.WalkVisits` | raspi/bluez/bluez-5.19/android/gatt.c:2165-2171 | From the head and then always on from the instance number returned, a client visits the first 255 characteristics once, in order, and then stops |
| `GattCharacteristics.WalkVisitsAll` | raspi/bluez/bluez-5.19/android/gatt.c:440-448 | So it visits them all exactly if there are at most 255 |
| `GattCharacteristics.Service.Discovered` | raspi/bluez/bluez-5.19/android/gatt.c:2042-2108 | The loop over the characteristics, with its 16-bit counter and 8-bit instance numbers; only an empty cache is filled |
| `GattCharacteristics.Service.GetCharacteristic` | raspi/bluez/bluez-5.19/android/gatt.c:2165-2171 | The head, or the first characteristic with a higher instance number |
| `SbcNegotiation.SelectedFits` | raspi/bluez/bluez-5.19/android/a2dp.c:375-400 | For a well-formed remote range and preset, what is selected passes the check against the remote and admits exactly the bitpools both ranges admit, of which there is one |
| `SbcNegotiation.ChosenWellFormed` | raspi/bluez/bluez-5.19/android/a2dp.c:342-359 | The chosen range is empty exactly if one of the two ranges is |
| `SbcNegotiation.ChosenFits` | raspi/bluez/bluez-5.19/android/a2dp.c:342-359 | A narrowed preset passes the check exactly if the range of the remote is not empty |
| `SbcNegotiation.CapableExactly` | raspi/bluez/bluez-5.19/android/a2dp.c:270-340 | A preset is not refused exactly for an SBC end point with 4 bytes of codec data on both sides, a common bit in each of the four masks compared, and ranges that touch; it fits exactly if its range lies within the other |
| `SbcNegotiation.RunShrinks` | raspi/bluez/bluez-5.19/android/a2dp.c:375-400 | Over every run of selections the stored ranges only shrink, stay non-empty for well-formed remotes, and no other field changes |
| `SbcNegotiation.SelectShrinks` | raspi/bluez/bluez-5.19/android/a2dp.c:375-400 | One selection leaves a stored range empty exactly if the remote it serves is malformed |
| `SbcNegotiation.StillCapable` | raspi/bluez/bluez-5.19/android/a2dp.c:342-359 | A preset that served a remote suits another exactly if it did before and the two remotes have a bitpool in common |
| `SbcNegotiation.CapableAfter` | raspi/bluez/bluez-5.19/android/a2dp.c:375-400 | After every run a preset suits a remote exactly if it did at first and every remote it served has a bitpool in common with it |
| `SbcNegotiation.RefusedAfter` | raspi/bluez/bluez-5.19/android/a2dp.c:375-400 | So a remote is refused exactly if every preset that suited it served one that has no bitpool in common with it |
| `SbcNegotiation.OrderMatters` | raspi/bluez/bluez-5.19/android/a2dp.c:351-352 | An example: a remote that a preset suits is refused after another one was served |
| `SbcNegotiation.CheckConfig` | raspi/bluez/bluez-5.19/android/a2dp.c:270-326 | For ranges that are not empty: the preset fits iff sizes agree, each feature has a common bit, and the remote admits every bitpool the preset does; it is refused iff sizes or features differ or they have no bitpool in common |
| `SbcNegotiation.SelectRange` | raspi/bluez/bluez-5.19/android/a2dp.c:342-359 | The stored preset is overwritten and a copy of it returned |
| `SbcNegotiation.SelectPreset` | raspi/bluez/bluez-5.19/android/a2dp.c:375-400 | The first preset not refused is returned itself if it fits, else narrowed in place and returned as a copy; the others are unchanged |

## Left out

- Sockets, channels, mgmt and HAL messages, SDP records, uinput, logging and wall-clock time: outcomes are parameters, timers are enabled steps, and what an upper-layer callback does to these objects in turn is not modelled.
- Freeing of raw memory, failed allocations and the layout of structures beyond the header fields; freed streams and requests are recorded, not reclaimed.
- The 32-bit and 64-bit counters of `avdtp_send` do not wrap in the model, so messages of 4 GB and more are outside it.
- A packet longer than the receiver's MTU, which `read` would cut, is not modelled: both ends agree on the MTU.
- The fields of a pending request that it gets when it goes out are kept with the session's outstanding request; a session's signalling channel exists as long as the session.
- Remote end points and their back pointers to streams, and the capability lists of streams.
- `avdtp_shutdown`.
- The upper layer keeps its reference to a session whose connection was lost by a timeout, until it drops it (the event `End` of `AvdtpDiscovery`).
- AvdtpEngine.Engine.ConnectionLost: covers the walk over the streams; the end of discovery is in `AvdtpDiscovery`, and disconnect callbacks are left out.
- AvdtpDiscovery.Discoverer.DiscoverRej: no idle source is registered, since the channel is watched at a lower priority than idle sources have.
- AvdtpDiscovery: what the callbacks of discovery call in turn is separate events after the one that called them.
- AvdtpPeer.PeerCommand: the Get Capabilities, Get Configuration, Reconfigure, Security Control and Delay Report commands are commands that are only answered.
- The upper layer installs all confirmation callbacks of a SEP or none of them; a hook that refuses gives a non-zero error.
- AvctpChannel.Channel.Response: the callback does not send requests of its own while the response is delivered.
- AVCTP pass-through keys, the incoming side of AVCTP, and `avrcp.c`.
- DeviceStore.Adapter.UpdateFoundDevice: the data of a device beyond its pairing state, such as names and times of sighting, are not modelled.
- Loading the key files at start: runs start from agreeing lists and files of at most 300 cached devices.
- GattConnections.Gatt.CreateConnection: connection numbers do not wrap at 32 bits.
- Starting and stopping of LE scans, services beyond their characteristics, and the GATT server.
- `parse_presets` and the set-up list of A2DP, codecs other than SBC, `avrcp-lib.c`, the testers, the Python scripts and the JavaScript of the repository: smaller or plumbing.
