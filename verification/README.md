# Open Carrier Network: call control, Ogg/Opus, messaging and numbering, verified

A model in Dafny of the parts of the Open Carrier Network that carry its calls and messages, and proofs of what they
keep. `dafny verify dfyconfig.toml` checks all of it.

**Call control** (`exchange.dfy`, `invariants.dfy`, `calls.dfy`, `legs.dfy`, `lines.dfy`, `served.dfy`, `stray.dfy`,
`laws.dfy`, `tables.dfy`, `outcomes.dfy`, `phases.dfy`, `server.dfy`). An exchange connects telephone lines over
WebSockets. Module `Exchange` has its whole state, the tables the handlers share together with a history of what was
sent, recorded and ended, and one function from state to state for each message handler, timer and bridge event. A
run is any sequence of these, timers at any moment. `CallInvariants` proves one joint invariant for every run,
`CallTheorems` draws the main conclusions, `CallLegs` sums up what any step does to one call id and its stream.
`OneCallPerLine` says when the tables and the sockets agree on who is in which call, `ServedCalls` when the client
of a service stays in its call, and `StrayCalls` which calls slip away from timers, recorders and their clients.
`CallLaws` and `CallTables` go the other way: for each message an exchange can send and each entry a table can have,
they say when an event makes it so, by one condition on the call that names no handler (`StepTells`, `StepSends`,
`StepCalls`, `StepLegsOk` and others); `CallOutcomes` draws conclusions over whole runs, such as what an answer
means from then on. Class `Signaling.Server` has the tables as mutable fields; each handler is a method, loops
included, that keeps the invariant and is proved to reach exactly the state the function gives. `CallPhases` goes
through the life of a call id again with single locked sections as steps.

**Federation** (`bridge.dfy`, `relay.dfy`). Any number of exchanges, with one stream for each call between two of
them: a FIFO in either direction that can break at any point and lose what was not read. The main result is that the
two servers agree about a call whenever nothing is in flight, and what is in flight when they do not. `Relay` is
about the caller: what it was told is what was read off its stream, and nobody hears "connected" before something at
the other end took the call.

**Ogg and Opus** (`crc.dfy`, `ogg.dfy`, `pages.dfy`). The page writer and the parser of voicemail recordings (RFC
3533 section 6, RFC 7845 sections 3 to 5), with the CRC as arithmetic of polynomials over GF(2), and what parsing
gives back of what was written. `OggPages` reads a recording by the fields of the format instead.

**Messaging** (`messages.dfy`, `contents.dfy`, `dmstore.dfy`). The outbox, the lossy send buffers, flush on
registration, acknowledgement, pruning, and the message store of the phone: delivery at least once, made exactly
once by the phone. `MessageContents` proves that what arrives is what was sent.

**Numbering** (`provisioning.dfy`, `registry.dfy`). Provisioning tokens with reserved numbers, renumbering, the area
codes of the registry, and the two allocators that try at random and then scan. Tables are maps, and a transaction
is one step that changes nothing when it fails.

**Audio and ICE at the edges** (`conference.dfy`, `softphone.dfy`, `recorder.dfy`). The mixer of the conference
service, the ICE buffers of the softphone, and the voicemail recorder.

## Where the code and its comments differ

The model follows the code.

- The CRC table is commented as "reflected" (ogg.go:155); it is not, and `OggCrc.CrcIsRemainder` says what it is.
- The parser compares eight bytes with the seven characters "OpusTag" (tts.go:153), so the comment header comes
  back as a first frame: `Ogg.PrintParse`, for the code and for the full literal.
- `trimSilence` promises to cut at most three seconds (recorder.go:267-280); its guard never holds:
  `VoicemailRecorder.NoThreeSecondCap`, and `ThreeSecondsIff` for when the promise is kept all the same.
- Storing a message from another server under its own id is called idempotent (dm/dm.go:119-131); the second
  insert fails while the first copy is there and succeeds after it was acknowledged:
  `StoreAndForward.RedeliveryRefusedIff` and `Redelivered`.
- A `call_answer` that comes late, after the ring was taken, is still forwarded (server.go:735-789):
  `StrayCalls.LateAnswerReaches`, and `LateAnswerIff` for when it reaches a caller who is being recorded.
- A second call to the same offline number overwrites the first in the queue (server.go:590), which then is in no
  queue and never expires: `StrayCalls.Overwritten`, and `StrandedIff` for all ways a queued call is lost so. A
  callee woken by a push gets no ring timer (server.go:1521-1540): `WokenUntimed`.
- When a callee disconnects while ringing, the caller is sent to voicemail and then told that the call ended
  (server.go:1661-1696): `StrayCalls.DesertionIff` and `DesertedRun`, and `ServiceClientIff` for what the service
  table then still means.
- A client that is in a call and places or is offered another has its callID overwritten (server.go:508-650),
  and the tables may name it for the first call still: `OneCallPerLine.StepLinesIff` and
  `StrayCalls.DisturbedRun`.
- The admin handler asks whether a number is free and issues its token in two transactions
  (admin/server.go:355-383): `Provisioning.CheckThenIssueCanCollide`, and `ApartIff` for when it is safe.
- A conference mix saturates after every addend (conference.go:264-275), so that the order of a map can be heard:
  `Conference.OrderCanMatter` and `OrderFreeIff`.
- `onCallConnected` waits twice, `makeCall` and `answerCall` wait too, and each then acts on whatever call is active
  (app_state.dart:796-816, 872-1012): `SoftphoneIce.LateCallback`, `LateAnswer` and `LateOrder`, and `NextSoundIff`
  with `NotMetSpoils` for exactly when that does harm.
- A local candidate gathered between "connected" and the flush goes out at once, before those that wait
  (app_state.dart:774-816, 1070-1081): `SoftphoneIce.Overtaken`, and `LocalOrderIff` for when the order is kept.

## Model

| member | source | states |
|---|---|---|
| `CallInvariants.StepKeeps` | ocnserver/internal/signaling/server.go:328-370 | Every handler, timer and bridge event keeps the joint invariant of all call tables, leg maps, sockets and histories. |
| `CallInvariants.RunKeeps` | ocnserver/internal/signaling/server.go:328-370 | The joint invariant holds in every state of every run of an exchange. |
| `CallTheorems.OnePhase` | ocnserver/internal/signaling/server.go:982-1136 | In every reachable state a locally created call id is in at most one of the ring, pending and service tables; it is given at most one recorder, which call control ends at most once, and neither while it still rings or waits. |
| `CallTheorems.PendingIndex` | ocnserver/internal/signaling/server.go:1476-1553 | No number is both queued and online, queued calls have different ids, and a queued call from another server has its leg, for the same number, untouched (no callee, no service, not answered). |
| `CallTheorems.LegOwner` | ocnserver/internal/signaling/bridge.go:273-315 | Every inbound leg is in the opened list of exactly one running stream, and that is the stream it came on. |
| `CallTheorems.CandidatesComplete` | ocnserver/internal/signaling/bridge.go:316-338 | If the callee was online when the call came in, its recorder has been handed exactly the caller's candidates since then, in order, each once. |
| `CallTheorems.RightMailbox` | ocnserver/internal/signaling/bridge.go:550-600 | Voicemail is always offered for the line that was dialled. |
| `CallTheorems.RecorderSettled` | ocnserver/internal/signaling/bridge.go:550-600 | No inbound leg is given more than one recorder, and that recorder is still attached, or ended itself, or was ended once. |
| `CallTheorems.StreamLeavesNothing` | ocnserver/internal/signaling/bridge.go:273-315 | When an inbound stream returns, none of its ids has a leg, is queued or is held by a socket; an attached service has been ended exactly once; legs of other streams are untouched. |
| `CallTheorems.StepStays` | ocnserver/internal/signaling/bridge.go:479-600 | No step takes an answered inbound leg from its callee or gives it a recorder. |
| `CallTheorems.AnsweredNeverRedirected` | ocnserver/internal/signaling/bridge.go:479-546 | Once its callee has answered, an inbound leg never gets a recorder and never changes callee, whatever timers fire later. |
| `CallOutcomes.AnswerStands` | ocnserver/internal/signaling/server.go:727-790 | From the answer itself, in any run: once the phone an inbound call was offered to answers it, the call is never given a recorder, and as long as its leg lasts that phone is its callee. |
| `CallOutcomes.HangupAfterAnswer` | ocnserver/internal/signaling/server.go:792-869 | If that phone then hangs up, HANGUP with reason "hangup" goes on the stream and the leg is gone. |
| `CallLaws.StepTells` | ocnserver/internal/signaling/server.go:475-1136 | For every message a socket can be sent and every event: it is sent exactly when one condition on the call and the event holds, the same for all handlers. |
| `CallLaws.StepSends` | ocnserver/internal/signaling/bridge.go:75-670 | For every message on a stream between servers and every event: likewise. |
| `CallTables.StepCalls` | ocnserver/internal/signaling/server.go:508-1136 | Which sockets are in which call after any event: those that the event puts there, and those that were there and do not leave: give it up, hear that it is over, or enter another. |
| `CallTables.StepRings` | ocnserver/internal/signaling/server.go:621-650 | A call rings, from and to whom it does, from the call of an online line until it is answered, declined, hung up, timed out or dropped, and no longer. |
| `CallTables.StepQueue` | ocnserver/internal/signaling/server.go:573-606 | A call waits for a pushed line until that registers, the entry expires, another call replaces it, or the call is over, and no longer. |
| `CallTables.StepServices` | ocnserver/internal/signaling/server.go:652-725 | A service has a call and a client from acceptance or recording until the client leaves, the call is hung up or the recorder ends, and no longer. |
| `CallTables.StepLegsOk` | ocnserver/internal/signaling/bridge.go:359-670 | Whether there is an inbound leg after any event and every field of it: stream, dialled number, callee, service, timer, answered, candidates. |
| `CallTables.StepListed` | ocnserver/internal/signaling/server.go:475-493 | Who is listed for a number: whoever registered it last, until that socket closes. |
| `CallTables.StepAsks` | ocnserver/internal/signaling/bridge.go:316-355 | What services are asked in any step: that a call is over exactly when its service loses it or failed to answer it, and the candidates they are handed. |
| `CallOutcomes.ToldAsOwed` | ocnserver/internal/signaling/server.go:475-1136 | In every run each socket was sent each message exactly as often as the condition of StepTells held. |
| `CallOutcomes.ConnectedIsEarned` | ocnserver/internal/signaling/server.go:727-1094 | Nobody is told "connected" unless a recorder or service took the call, the phone that the call was offered to answered it, or the other server said so. |
| `CallOutcomes.OfferedOnce` | ocnserver/internal/signaling/server.go:608-650 | A call id is offered at most once, to one socket, and that is registered for the line that was dialled. |
| `CallOutcomes.ServiceEndsOnce` | ocnserver/internal/signaling/server.go:1122-1136 | A service keeps the client of its call until it is told, exactly once, that the call is over. |
| `CallLegs.StepLegs` | ocnserver/internal/signaling/bridge.go:111-466 | What any step of an exchange does to one call id: at most one message on its stream, INCOMING only with a new out-leg, and no leg disappears without a closing message, a message from the peer or the loss of the stream. |
| `Federation.NextKeeps` | ocnserver/internal/signaling/bridge.go:111-355 | Each move of a network of exchanges, including a stream breaking at any point in either direction, keeps the session invariant of every bridged call. |
| `Federation.HistoryKeeps` | ocnserver/internal/signaling/bridge.go:111-355 | The session invariant holds in every reachable network state. |
| `Federation.Agreement` | ocnserver/internal/signaling/bridge.go:111-670 | In every reachable network state: an out-leg without its in-leg means INCOMING is still unread or a HANGUP or BUSY is on its way back, or the stream broke; an in-leg without its out-leg means a HANGUP is on its way or the stream broke; once the call is drained the two servers agree, and after a break neither has the call. |
| `Federation.Disagreement` | ocnserver/internal/signaling/bridge.go:192-253 | For one call and any way two leg views can differ: exactly which message is in flight; when both readers are done no leg is left; with nothing unread the views agree. |
| `Federation.LegsHaveStreams` | ocnserver/internal/signaling/bridge.go:75-139 | Every leg of every exchange belongs to one bridged call that this exchange placed, or took. |
| `Relay.CallerHears` | ocnserver/internal/signaling/bridge.go:192-253 | In every reachable network state the caller was told ringing, connected, each candidate and each end with its reason exactly as often as RINGING, ANSWER, that ICE and that HANGUP or BUSY have been read off its stream, once more "disconnect" if the stream was lost, and nobody else was told anything. |
| `Relay.AcceptIsEarned` | ocnserver/internal/signaling/bridge.go:359-600 | An exchange puts ANSWER on a stream only after a phone it offered the call to answered, or a recorder or hosted service took it. |
| `Relay.ConnectedAfterAnswer` | ocnserver/internal/signaling/bridge.go:218-227 | So nobody hears "connected" about a call to another server before that happened there. |
| `OneCallPerLine.StepLinesIff` | ocnserver/internal/signaling/server.go:508-650 | A step keeps every ring, pending call, out-leg and in-leg in step with the call ids of the sockets they name exactly if no table goes on naming, for its old call, a socket whose callID the step overwrites. |
| `OneCallPerLine.RunLinesIff` | ocnserver/internal/signaling/server.go:508-650 | In a run they agree all along exactly as long as no step does that. |
| `OneCallPerLine.CourteousIsUndisturbed` | ocnserver/internal/signaling/server.go:508-650 | Placing calls from and to idle ends only is enough for that. |
| `OneCallPerLine.DisturbedBreaks` | ocnserver/internal/signaling/server.go:508-650 | A step that overwrites the callID of a socket some table names leaves that table at odds with the socket. |
| `OneCallPerLine.RingersAreInTheirCall` | ocnserver/internal/signaling/server.go:621-647 | In an undisturbed run, whoever rings and whoever is rung under an id are two different sockets, both in that call. |
| `OneCallPerLine.GoneIsForgotten` | ocnserver/internal/signaling/server.go:1642-1708 | In an undisturbed run, after a socket was unregistered no ring, out-leg, inbound callee or queued caller mentions it, ever again; for services see StrayCalls. |
| `OneCallPerLine.ReplacementStays` | ocnserver/internal/signaling/server.go:1696-1708 | A stale socket that closes does not unlist the socket that replaced it. |
| `ServedCalls.ServiceStep` | ocnserver/internal/signaling/server.go:652-725 | While tables and sockets agree, a step leaves the client of a service out of its call exactly if it was out already, its ringing callee closes its socket, or the step overwrites the client's callID. |
| `StrayCalls.ServiceClientIff` | ocnserver/internal/signaling/server.go:1122-1136 | In an undisturbed run the client of a service is in that call exactly if no such step has happened to it. |
| `StrayCalls.GoneClientsStrayed` | ocnserver/internal/signaling/server.go:1642-1708 | A service that still names a closed socket is one whose client strayed from its call before. |
| `StrayCalls.DesertionIff` | ocnserver/internal/signaling/server.go:1661-1696 | When a ringing callee closes its socket, the caller is recorded exactly if voicemail answers and the caller is online; it is then told both that it is connected and that the call ended, and is in no call. |
| `StrayCalls.DesertedRun` | ocnserver/internal/signaling/server.go:1661-1696 | A run after which a recorder goes on for a caller whose socket is closed. |
| `StrayCalls.LateAnswerIff` | ocnserver/internal/signaling/server.go:735-789 | A call_answer that comes after the ring was sent to a recorder reaches the recorded caller exactly if that is listed and still in the call. |
| `StrayCalls.LateAnswerReaches` | ocnserver/internal/signaling/server.go:735-789 | A run in which the caller is told twice that it is connected. |
| `StrayCalls.StrandedIff` | ocnserver/internal/signaling/server.go:573-606 | The caller of a queued local call is left waiting in a call no timer, service or queue has exactly if another call for the number replaces the entry, the callee registers or the entry expires while the caller is not online, or another server ends a call of that id. |
| `StrayCalls.NowhereStays` | ocnserver/internal/signaling/server.go:970-1136 | A known call that neither rings nor waits nor is served never does again, in any run. |
| `StrayCalls.WokenUntimed` | ocnserver/internal/signaling/server.go:1476-1541 | Once the callee of a waiting local call registers, no ring timer, queue entry or service ever has that call again. |
| `StrayCalls.Overwritten` | ocnserver/internal/signaling/server.go:573-606 | A run in which a second call to an offline number strands the first caller. |
| `StrayCalls.DisturbedRun` | ocnserver/internal/signaling/server.go:508-650 | A run in which a ring names a socket that is in another call. |
| `CallPhases.SectionKeeps` | ocnserver/internal/signaling/server.go:970-1136 | At the granularity of single locked sections, each section keeps every call id in one place with a fitting past. |
| `CallPhases.CallIdPhases` | ocnserver/internal/signaling/server.go:970-1136 | Under every interleaving of locked sections a local id is in at most one table, goes through ring or queue at most once and only then into service at most once, opens at most one voicemail session and has it ended at most once. |
| `CallPhases.ServicesAreTold` | ocnserver/internal/signaling/server.go:1122-1136 | Under every interleaving a call that had a service still has it, or the service has been told once that it is over, or a goroutine is about to tell it. |
| `CallPhases.AccountsBalance` | ocnserver/internal/signaling/server.go:970-1136 | Under every interleaving what was put into the ring or service table and not taken out is in it, and every offer to voicemail and every end is counted once. |
| `Signaling.Server.HandleRegister` | ocnserver/internal/signaling/server.go:475-493 | The socket is listed under its number, and a call queued for the number is taken out and delivered: new state equal to the specification. |
| `Signaling.Server.DeliverPendingCall` | ocnserver/internal/signaling/server.go:1476-1541 | A woken callee is offered the queued call if its leg, or its local caller, is still there; otherwise nothing but the removal. |
| `Signaling.Server.UnregisterClient` | ocnserver/internal/signaling/server.go:1642-1708 | A closing socket leaves its leg, queue entry, ring and service, the others in the call are told, and it is unlisted only if it is still the listed one. |
| `Signaling.Server.HandleCall` | ocnserver/internal/signaling/server.go:573-650 | Ring an online line; queue and push an offline one; or record a message under a fresh id; or refuse: new state equal to the specification for each case. |
| `Signaling.Server.HandleServiceCall` | ocnserver/internal/signaling/server.go:652-725 | A service call is recorded and connected only if the service accepts it. |
| `Signaling.Server.StartCrossCall` | ocnserver/internal/signaling/bridge.go:75-139 | A call to another area opens an out-leg, its reader and INCOMING on its stream, or nothing. |
| `Signaling.Server.HandleCallAnswer` | ocnserver/internal/signaling/server.go:727-790 | Takes the ring, marks the inbound leg answered, tells the other party, late answers included; CallOutcomes.AnswerStands and CallLaws.StepTells say what that amounts to. |
| `Signaling.Server.HandleCallHangup` | ocnserver/internal/signaling/server.go:792-869 | The order of the cases: ring declined to voicemail, inbound leg declined, leg closed, queue entry and service ended, other parties told. |
| `Signaling.Server.HandleCallDecline` | ocnserver/internal/signaling/server.go:938-968 | Declining a ring sends its caller to voicemail; anything else is a hangup. |
| `Signaling.Server.HandleICECandidate` | ocnserver/internal/signaling/server.go:871-936 | Candidates go to the service, the peer server or the other local party, never more than one of the three. |
| `Signaling.Server.OnRingTimeout` | ocnserver/internal/signaling/server.go:995-1021 | Only a ring that is still there is ended and its caller sent to voicemail. |
| `Signaling.Server.RouteToVoicemail` | ocnserver/internal/signaling/server.go:1048-1094 | A local caller who is still online is connected to the recorder of the dialled line under the id given. |
| `Signaling.Server.EndServiceCall` | ocnserver/internal/signaling/server.go:1122-1136 | A service call leaves its table, its caller is told and the service is ended if it was there. |
| `Signaling.Server.RemovePendingByCallID` | ocnserver/internal/signaling/server.go:1543-1553 | Removes the queue entry of the id and reports whether there was one; relies on ids being queued at most once. |
| `Signaling.Server.CloseLocalLeg` | ocnserver/internal/signaling/server.go:1557-1571 | The local party's leg goes and HANGUP is put on its stream, if it had one. |
| `Signaling.Server.ExpirePendingCall` | ocnserver/internal/signaling/server.go:1573-1630 | An expired entry sends its local caller, or its inbound leg, to voicemail or ends it. |
| `Signaling.Server.InboundIncoming` | ocnserver/internal/signaling/bridge.go:359-466 | INCOMING rings an online line, queues an offline one, records, is hosted or is refused, with the leg and the opened list updated in each case. |
| `Signaling.Server.OnInboundRingTimeout` | ocnserver/internal/signaling/bridge.go:479-496 | Only a leg that is not answered and still has its callee is taken from that callee and sent to the recorder. |
| `Signaling.Server.DeclineInboundCallee` | ocnserver/internal/signaling/bridge.go:521-546 | Handles exactly the legs this socket is the unanswered callee of. |
| `Signaling.Server.RouteInboundVoicemailOr` | ocnserver/internal/signaling/bridge.go:550-600 | Attach a recorder, answer and replay all buffered candidates in order, or close the leg with the message given. |
| `Signaling.Server.HandleInboundICE` | ocnserver/internal/signaling/bridge.go:316-338 | A candidate is buffered, then forwarded to the service or the callee. |
| `Signaling.Server.InboundRemoteHangup` | ocnserver/internal/signaling/bridge.go:638-670 | The leg goes and whoever was at its local end is told, or the queue entry goes. |
| `Signaling.Server.StopServing` | ocnserver/internal/signaling/bridge.go:273-315 | The deferred clean-up loop over the opened list: every leg and queue entry of the stream goes. |
| `Signaling.Server.HandleOutbound` | ocnserver/internal/signaling/bridge.go:192-246 | New state equal to the specification for each event; Relay.CallerHears says what the caller hears. |
| `Signaling.Server.OutboundEnds` | ocnserver/internal/signaling/bridge.go:246-253 | However the loop ends, the out-leg goes and the caller is freed. |
| `OggCrc.BuildTable` | ocnserver/internal/voicemail/ogg.go:156-170 | Entry b of the table is b shifted to the top and eight times multiplied by x modulo the polynomial. |
| `OggCrc.ComputeCrc` | ocnserver/internal/voicemail/ogg.go:172-178 | The table loop computes the remainder register of the data. |
| `OggCrc.TableStep` | ocnserver/internal/voicemail/ogg.go:172-178 | One table lookup is eight single-bit steps, for any table entry. |
| `OggCrc.CrcIsRemainder` | ocnserver/internal/voicemail/ogg.go:155-178 | The checksum is the remainder of message * x^32 on long division, bit by bit from the top of each byte, by 0x04c11db7, from 0, with nothing xored at the end. |
| `OggCrc.OneLeavesGenerator` | ocnserver/internal/voicemail/ogg.go:155-178 | The message 1 has the generator's own coefficients as its checksum. |
| `OggCrc.CrcLinear` | ocnserver/internal/voicemail/ogg.go:172-178 | On inputs of one length the checksum of the xor is the xor of the checksums. |
| `OggCrc.DamageDetected` | ocnserver/internal/voicemail/ogg.go:172-178 | Changing anything within any four adjacent bytes, of any message, changes the checksum. |
| `Ogg.OggWriter.WritePage` | ocnserver/internal/voicemail/ogg.go:105-153 | The buffer grows by exactly the page of RFC 3533 section 6 for the packet and the sequence number by one; nothing happens for an empty packet; it fails exactly if 65025 bytes or more. |
| `Ogg.BuildLacing` | ocnserver/internal/voicemail/ogg.go:109-124 | The segment table is full segments of 255 and a last one below 255, zero for an exact multiple. |
| `Ogg.LacingLength` | ocnserver/internal/voicemail/ogg.go:121-127 | A packet needs more than 255 segments exactly if it has 65025 bytes or more. |
| `Ogg.PageChecks` | ocnserver/internal/voicemail/ogg.go:146-147 | A page whose bytes 22 to 25 are zeroed has the checksum stored there. |
| `Ogg.BuildOgg` | ocnserver/internal/voicemail/ogg.go:50-71 | Fails exactly if some frame has 65025 bytes or more; otherwise the two headers and one page for each nonempty frame. |
| `Ogg.ParseOggOpus` | ocnserver/internal/services/tts.go:87-171 | The offset loop returns what the recursive reading of the stream gives: an error at bytes that are no page, and everything so far at a page cut short. |
| `Ogg.ReadPage` | ocnserver/internal/services/tts.go:92-165 | One page: cut short, or its packets and the offset after it. |
| `Ogg.PagePackets` | ocnserver/internal/services/tts.go:120-165 | The packetStart and packetLen loop splits a page body into the packets its segments say. |
| `Ogg.LacedPacket` | ocnserver/internal/services/tts.go:120-165 | The segments written for a packet give back that one packet. |
| `Ogg.ParsePrinted` | ocnserver/internal/services/tts.go:87-171 | A printed page followed by anything parses to its packet, kept or skipped, and then the rest. |
| `Ogg.PrintParse` | ocnserver/internal/services/tts.go:150-158 | Parsing what was built gives the kept frames preceded by the comment header, because the literal has 7 characters against 8 bytes; with all 8 it would be the kept frames alone. |
| `OggPages.FramePages` | ocnserver/internal/voicemail/ogg.go:50-153 | A reader that goes by the fields of the format finds in any recording without empty frames the two headers and then, page by page, each frame with its time at 48 kHz in multiples of 960, sequence numbers without a gap, and the end marked on the last. |
| `OggPages.StreamReads` | ocnserver/internal/voicemail/ogg.go:50-71 | With empty frames too: they have no page, and the numbering goes on without them. |
| `OggPages.PageReads` | ocnserver/internal/voicemail/ogg.go:105-153 | One page reads as version, flags, position, serial, number and body it was written with. |
| `OggPages.IdHeaderFields` | ocnserver/internal/voicemail/ogg.go:73-84 | The identification header of RFC 7845 section 5.1: mono, 48 kHz, no gain. |
| `OggPages.CommentHeaderFields` | ocnserver/internal/voicemail/ogg.go:86-97 | The comment header of section 5.2: the vendor string with its length, no comments. |
| `Ogg.PlainFramesKept` | ocnserver/internal/services/tts.go:145-160 | The frames come back untouched exactly if none is empty or starts like a header. |
| `Ogg.SerializeFrames` | ocnserver/internal/voicemail/ogg.go:20-29 | Each frame follows its length, four bytes little endian, cut to 32 bits. |
| `Ogg.DeserializeFrames` | ocnserver/internal/voicemail/ogg.go:32-47 | Reads back frame by frame and stops at the first one cut short. |
| `Ogg.StorageRoundTrip` | ocnserver/internal/voicemail/ogg.go:20-47 | Storing and reading frames gives them back exactly if each is shorter than 2^32 bytes. |
| `Ogg.ReadBackIsPrefix` | ocnserver/internal/voicemail/ogg.go:32-47 | Whatever the stored bytes are, what is read back would be stored as a beginning of them. |
| `StoreAndForward.NothingLost` | ocnserver/internal/signaling/server.go:1286-1307 | With full buffers, events and acks lost, overtaken or late from a superseded socket, reconnects, flushes and pruning in any order: a message whose sender was told "delivered" is, by its id, in the recipient's outbox, on the recipient's phone, or was pruned more than seven days old. |
| `MessageContents.DeliveredAsSent` | ocnserver/internal/signaling/server.go:1384-1424 | And it is there as it was sent: as long as one message only is stored under the id, however often, row and record have its sender, kind, body and time. |
| `MessageContents.ArrivesAsSent` | ocnserver/internal/signaling/server.go:1384-1424 | Under that condition every record any phone receives under the id has the sender, kind, body and time of the message, and is on its recipient's phone. |
| `MessageContents.HomeMessage` | ocnserver/internal/signaling/server.go:1286-1307 | A message sent on its home server meets it, unless another server uses the id as well. |
| `MessageContents.EventsAreTrue` | ocnserver/internal/signaling/server.go:1384-1406 | Every "new" event in a send buffer or on its way carries sender, kind, body and time of a message stored for that number under its id. |
| `MessageContents.RecordsAreTrue` | softphone/lib/core/app_state.dart:332-345 | Every received record has peer, kind, body and time of a message stored for that number under its id, and is read only if the conversation was opened since the start. |
| `MessageContents.SentAreTrue` | softphone/lib/core/app_state.dart:313-335 | Every sent record has peer, kind, body and time of what was composed on that phone, whatever statuses came back. |
| `MessageContents.ArrivalDoes` | softphone/lib/core/app_state.dart:340-380 | A "new" event leaves its record, unread; it is announced exactly if the id was not there, and a text is acknowledged at once, an image not. |
| `MessageContents.StatusFiles` | softphone/lib/core/app_state.dart:313-335 | A status files the sent message under the id the server gave it. |
| `MessageContents.PrunesByAge` | ocnserver/internal/store/dm.go:100-107 | Pruning drops exactly the rows more than seven days old. |
| `StoreAndForward.AckMeansStored` | softphone/lib/core/app_state.dart:346-372 | Whenever an acknowledgement is on its way, the phone holds the message. |
| `StoreAndForward.ExactlyOnce` | softphone/lib/core/app_state.dart:312-381 | Across all redeliveries a phone has no two messages with one id and announces each as new at most once. |
| `StoreAndForward.FlushOffersIff` | ocnserver/internal/signaling/server.go:1408-1424 | A registration puts into the new send buffer only notices of rows queued for the number, none twice; and every one of them exactly if there are at most 64 and each found room. |
| `StoreAndForward.RedeliveryRefusedIff` | ocnserver/internal/store/dm.go:34-47 | A message from another server that comes again is refused exactly as long as its first copy has been neither acknowledged nor pruned; after that it is stored again. |
| `StoreAndForward.Redelivered` | ocnserver/internal/signaling/relaydm.go:15-52 | A run in which an acknowledged message is stored a second time. |
| `StoreAndForward.StepOk` | ocnserver/internal/signaling/relaydm.go:15-52 | Every step of server, socket, clock and phone keeps the whole messaging invariant. |
| `DeviceStore.DmStore.AddOrUpdateMessage` | softphone/lib/core/db/dm_store.dart:69-78 | Replaces the message with the id or appends it, and says "new" exactly if the id was not there. |
| `DeviceStore.DmStore.MarkPeerRead` | softphone/lib/core/db/dm_store.dart:92-99 | Exactly the unread inbound messages of the peer become read, in place. |
| `DeviceStore.DmStore.RemoveById` | softphone/lib/core/db/dm_store.dart:101-103 | Exactly the messages with the id go, the order stays. |
| `DeviceStore.DmStore.RemovePeer` | softphone/lib/core/db/dm_store.dart:105-107 | Exactly the messages of the peer go, the order stays. |
| `DeviceStore.DmStore.CountUnreadFor` | softphone/lib/core/db/dm_store.dart:86-87 | The count is that of inbound unread messages of the peer. |
| `DeviceStore.DmStore.LatestByPeer` | softphone/lib/core/db/dm_store.dart:110-117 | For each peer with messages, and only those, the first one with the latest time. |
| `DeviceStore.DmStore.Threads` | softphone/lib/core/db/dm_store.dart:109-129 | One thread for each peer with messages, its latest message and unread count, newest first. |
| `DeviceStore.UnreadAddsUp` | softphone/lib/core/db/dm_store.dart:86-129 | The unread counts of the threads sum to the unread total. |
| `DeviceStore.AlwaysUnique` | softphone/lib/core/db/dm_store.dart:69-107 | No sequence of store operations leaves two entries with one id. |
| `DeviceStore.AnnouncedOnce` | softphone/lib/core/db/dm_store.dart:69-78 | However the store is used: how often an id is reported as new, plus whether it was there, is how often it was removed, plus whether it is there now; so without removals once at most. |
| `DeviceStore.UnreadCounts` | softphone/lib/core/db/dm_store.dart:86-87 | The unread count of a peer is the number of places in the list with an unread inbound message of it. |
| `DeviceStore.OpenedIsRead` | softphone/lib/core/db/dm_store.dart:92-99 | Opening a conversation leaves nothing of it unread and the counts of all others as they are. |
| `DeviceStore.FoundByClient` | softphone/lib/core/db/dm_store.dart:61-66 | The lookup by client id gives the first message with it, and nothing exactly if there is none. |
| `Provisioning.PickFreeNumbers` | ocnserver/internal/store/provisioning.go:304-323 | For any random draws: min(n, free) different seven-digit numbers outside the used set, which grows by exactly them. |
| `Provisioning.FormatValue` | ocnserver/internal/store/provisioning.go:299-308 | Printing seven digits loses nothing: numbers that differ print differently. |
| `Provisioning.PoolSize` | ocnserver/internal/store/provisioning.go:299-302 | There are nine million numbers to give out. |
| `Provisioning.Reservations` | ocnserver/internal/store/provisioning.go:116-214 | In every reachable store line numbers are unique, reserved numbers are unique, and a token has made at most one line. |
| `Provisioning.NextApartIff` | ocnserver/internal/admin/server.go:355-383 | A transaction keeps reserved numbers apart from those of lines exactly if it does not reserve a number a line has by then. |
| `Provisioning.ApartIff` | ocnserver/internal/admin/server.go:355-383 | In a run they are apart all along exactly if no number was in use at the moment it was reserved. |
| `Provisioning.ReservationHonouredIff` | ocnserver/internal/store/provisioning.go:137-214 | In every reachable store a new key that claims an issued, unexpired fixed-number token gets that number, or is refused exactly if a line has it; none has if none had when it was reserved. |
| `Provisioning.ClaimSucceedsIff` | ocnserver/internal/store/provisioning.go:137-214 | In every reachable store a claim succeeds exactly if the token is issued and unexpired, the key new, and the reserved number is no line's or, for an open token, a number is free. |
| `Provisioning.StatusesOnlyAdvance` | ocnserver/internal/store/provisioning.go:96-108 | A token keeps its number and expiry and goes from issued to used or revoked only. |
| `Provisioning.RevokedForGood` | ocnserver/internal/store/provisioning.go:96-108 | From the revocation of an issued token on, in any run: it is revoked, reserves no number, has made no line, and every claim with it is refused as revoked. |
| `Provisioning.ClaimMakes` | ocnserver/internal/store/provisioning.go:137-214 | A successful claim adds exactly the line with the reserved or allocated number and the name given, and uses the token up: every later claim with it is refused. |
| `Provisioning.IssueMakes` | ocnserver/internal/store/provisioning.go:51-66 | Issuing adds exactly the token asked for, or nothing if the hash or the number is reserved already. |
| `Provisioning.RenumberDoes` | ocnserver/internal/store/lines.go:74-126 | Renaming and renumbering change exactly that line to what was asked for, and are refused exactly if the number is another line's, or new to the line and reserved. |
| `Provisioning.DeleteFrees` | ocnserver/internal/store/lines.go:62-71 | Deleting removes exactly that line, and its number is available again exactly if no token reserves it. |
| `Provisioning.LineStays` | ocnserver/internal/store/lines.go:62-126 | A line stays as it is, in any run, until it is renumbered, renamed or deleted. |
| `Provisioning.CheckThenIssueCanCollide` | ocnserver/internal/admin/server.go:355-383 | A run in which a number is free when it is asked for, a renumbering takes it, and the token issued for it cannot be claimed. |
| `Provisioning.LineStore.NewProvisionToken` | ocnserver/internal/store/provisioning.go:51-66 | Adds the token, or fails on a hash or reserved number that is there already, changing nothing. |
| `Provisioning.LineStore.RevokeProvisionToken` | ocnserver/internal/store/provisioning.go:96-108 | An issued token becomes revoked, any other state is reported and left as it is; RevokedForGood says what follows. |
| `Provisioning.LineStore.TakenNumberSet` | ocnserver/internal/store/provisioning.go:264-297 | Exactly the numbers of lines and of issued tokens. |
| `Provisioning.LineStore.ProvisionUserOnce` | ocnserver/internal/store/provisioning.go:137-214 | One claim: the result and both tables are those of the transaction for some free number the allocator may return. |
| `Provisioning.LineStore.ProvisionUser` | ocnserver/internal/store/provisioning.go:116-134 | The retry loop, with any transactions of others between its attempts: the result and the tables are those of one attempt on the tables it finds, the first that is not refused for a number just taken, or the fifth. |
| `Provisioning.LineStore.NumberAvailable` | ocnserver/internal/store/lines.go:129-143 | Says free exactly if no line has and no issued token reserves the number. |
| `Provisioning.LineStore.UpdateLineByNumber` | ocnserver/internal/store/lines.go:74-126 | Renames or renumbers exactly the one line, or refuses a number that is taken or reserved. |
| `Provisioning.LineStore.DeleteLineByNumber` | ocnserver/internal/store/lines.go:62-71 | Removes exactly the line with the number, or reports that there is none. |
| `Registry.PickFree` | registry_server/internal/store/store.go:180-213 | For any random draws: an unused allowed code, and failure exactly if all allowed codes are used. |
| `Registry.AllowedCount` | registry_server/internal/store/store.go:106-120 | Exactly 798 codes may be assigned. |
| `Registry.OnlyAllowedCodes` | registry_server/internal/store/store.go:124-172 | Every code in every reachable table is allowed, and there are at most 798. |
| `Registry.FullExactlyAt798` | registry_server/internal/store/store.go:180-213 | An open registration is refused for lack of codes exactly if 798 are stored. |
| `Registry.KeyStays` | registry_server/internal/store/store.go:137-172 | The key of an area does not change until the area is deregistered. |
| `Registry.OwnerKeeps` | registry_server/internal/store/store.go:137-172 | From the moment it has a code until a signed removal, in any run: the same key joining again keeps it and only refreshes its details, and every other key is refused. |
| `Registry.JoinOwns` | registry_server/internal/store/store.go:124-172 | From the registration itself, in any run: the entry is what was registered, under the code asked for or a free one, all other entries are as they were; and until a signed removal of the code the same key re-registers with it and every other key is refused. |
| `Registry.LeaveFrees` | registry_server/internal/store/store.go:277-290 | A signed removal takes out exactly that code, which any key can then register; an unsigned one changes nothing. |
| `Registry.Trimmed` | registry_server/internal/store/store.go:124-135 | The code asked for is taken without the space at both ends, and nothing else is left out. |
| `Registry.RefusedIff` | registry_server/internal/store/store.go:124-172 | In every reachable table a registration is refused exactly if no code is left, the code asked for may not be assigned, or another key has it. |
| `Registry.RegistryStore.RegisterServer` | registry_server/internal/store/store.go:124-172 | New table and result equal to the specification for some code the allocator may return; an error leaves the table as it was. |
| `Registry.RegistryStore.DeregisterServer` | registry_server/internal/store/store.go:277-290 | Removes the area only if it is there and the signature is good, and changes nothing otherwise. |
| `Conference.MixInRange` | ocnserver/internal/services/conference.go:266-275 | What is heard stays within 16 bits. |
| `Conference.NotOneself` | ocnserver/internal/services/conference.go:262-265 | The receiver's own sample makes no difference to what it hears. |
| `Conference.MixMinus` | ocnserver/internal/services/conference.go:259-276 | If no partial sum saturates in the order at hand, a receiver hears the total less its own sample. |
| `Conference.AlwaysExactIff` | ocnserver/internal/services/conference.go:219-276 | It does so in every order of the participants exactly if the positive samples of the others and their negative samples each add up within 16 bits. |
| `Conference.SameSignClamps` | ocnserver/internal/services/conference.go:266-275 | If all others push one way, saturating one by one is saturating the sum once. |
| `Conference.OrderFreeIff` | ocnserver/internal/services/conference.go:219-276 | The order of the participants, which is that of a map, makes no difference to a receiver exactly if the others all push one way, or their positive samples and their negative samples each add up within 16 bits. |
| `Conference.OrderCanMatter` | ocnserver/internal/services/conference.go:219-276 | Two orders of the same voices that are heard differently. |
| `Conference.MixFor` | ocnserver/internal/services/conference.go:259-279 | The nested loops give, at every position, the mix of the others; nothing exactly if nobody else has a frame. |
| `Conference.Mixer.Tick` | ocnserver/internal/services/conference.go:248-291 | One packet for each receiver with somebody to hear, all with the stamps of this tick; the counters move only if somebody is in. |
| `Conference.StampsDiffer` | ocnserver/internal/services/conference.go:248-255 | Sequence numbers repeat only after 2^16 ticks and timestamps only after 2^26. |
| `Conference.StampsFollow` | ocnserver/internal/services/conference.go:248-255 | Both stamps start at zero; the sequence number grows by 1 in 16 bits and the timestamp by 960 in 32. |
| `SoftphoneIce.AppState.FlushLocalIce` | softphone/lib/core/app_state.dart:1070-1081 | All waiting local candidates are sent once, in order, under the id of the active call. |
| `SoftphoneIce.AppState.FlushRemoteIce` | softphone/lib/core/app_state.dart:1083-1090 | All waiting remote candidates are applied once, in order, if and only if there is a peer connection with its description set. |
| `SoftphoneIce.AppState.OnICECandidate` | softphone/lib/core/app_state.dart:827-844 | A candidate for another call is dropped, others are applied or buffered. |
| `SoftphoneIce.AppState.FinishConnected` | softphone/lib/core/app_state.dart:799-816 | The end of onCallConnected acts on whatever call is active by then. |
| `SoftphoneIce.FinishSoundIff` | softphone/lib/core/app_state.dart:796-816 | The end of onCallConnected leaves the active call in order exactly if no local candidate waits there for an id and, when it brings an answer, the description is set there. |
| `SoftphoneIce.NextSoundIff` | softphone/lib/core/app_state.dart:758-1012 | So for every event and every late callback, of makeCall and answerCall too: a call in order stays so exactly if the callback finds what it has to. |
| `SoftphoneIce.CandidatesInOrder` | softphone/lib/core/app_state.dart:758-844 | In every run in which late callbacks find that: accepted remote candidates are those applied followed by those buffered, in order, none applied before the description; every local candidate is sent once or waits, never under an empty id. |
| `SoftphoneIce.NotMetSpoils` | softphone/lib/core/app_state.dart:758-844 | The first late callback that does not find it can be followed by events after which one of the three fails. |
| `SoftphoneIce.FaithfulIsMet` | softphone/lib/core/app_state.dart:758-1012 | Callbacks that resume on the call they began with always find it. |
| `SoftphoneIce.NeverLost` | softphone/lib/core/app_state.dart:758-1012 | In every run at all, whatever call late callbacks find: each local candidate is sent once or waits, and each accepted remote one is applied once or waits. |
| `SoftphoneIce.OwnCandidatesOnly` | softphone/lib/core/app_state.dart:827-844 | In every run the active call has taken exactly the remote candidates that were for it while it was active, in order, and gathered exactly what its connection produced. |
| `SoftphoneIce.SentUnderItsId` | softphone/lib/core/app_state.dart:1070-1081 | As long as the server names the call by one id, every candidate it sends is under that id. |
| `SoftphoneIce.AnswersItsOwnCall` | softphone/lib/core/app_state.dart:774-796 | In every run "connected" is taken exactly if it is for the active call or that was placed here and has no id yet; any other changes nothing. |
| `SoftphoneIce.LocalOrderIff` | softphone/lib/core/app_state.dart:1070-1081 | An event keeps local candidates in the order they were gathered exactly if none is gathered while others still wait although the id is known. |
| `SoftphoneIce.Overtaken` | softphone/lib/core/app_state.dart:774-816 | A run in which a later local candidate goes out while an earlier one waits. |
| `SoftphoneIce.EmptyIdSentIff` | softphone/lib/core/app_state.dart:774-816 | The end of onCallConnected sends under an empty id exactly if the active call has no id yet and has candidates waiting. |
| `SoftphoneIce.LateCallback` | softphone/lib/core/app_state.dart:774-816 | A run in which a candidate goes out under an empty id. |
| `SoftphoneIce.LateAnswer` | softphone/lib/core/app_state.dart:774-816 | A run in which a candidate is applied before the description. |
| `SoftphoneIce.LateOrder` | softphone/lib/core/app_state.dart:774-844 | A run in which a later candidate is applied while an earlier one still waits. |
| `SoftphoneIce.AppState.OfferDescribed` | softphone/lib/core/app_state.dart:942-1012 | Once the description is set, the flag is set and the waiting remote candidates are applied to whatever call is active. |
| `VoicemailRecorder.LeaveService.HandleCall` | ocnserver/internal/voicemail/recorder.go:58-129 | A session is in the table exactly if the offer was taken. |
| `VoicemailRecorder.LeaveService.EndCall` | ocnserver/internal/voicemail/recorder.go:140-151 | Ending twice closes the done channel of a session once. |
| `VoicemailRecorder.Record` | ocnserver/internal/voicemail/recorder.go:159-236 | The recording is the first maxFrames audio frames before the end, and the recorder hangs up itself exactly when it has that many. |
| `VoicemailRecorder.AudioHeard` | ocnserver/internal/voicemail/recorder.go:159-236 | Packets are taken one by one until the call stops or a read fails, and what is kept of each is its audio, if not empty. |
| `VoicemailRecorder.TrimSilence` | ocnserver/internal/voicemail/recorder.go:269-291 | The loop removes the silent frames at the end. |
| `VoicemailRecorder.TrimmedExactly` | ocnserver/internal/voicemail/recorder.go:269-291 | What is kept is a beginning, all that is removed is silent, and the last frame kept is not. |
| `VoicemailRecorder.ThreeSecondsIff` | ocnserver/internal/voicemail/recorder.go:267-280 | No more than the promised three seconds are cut exactly if the message is no longer than that or one of its last 151 frames is not silent. |
| `VoicemailRecorder.NoThreeSecondCap` | ocnserver/internal/voicemail/recorder.go:267-280 | A message of nothing but silence is removed however long: the three-second limit never applies. |

## Left out

Call control and federation:

- Locks. A handler is one atomic step, except in `CallPhases`; deadlocks are not modelled.
- Signaling.Server.HandleCall: excludes a line that dials itself, which would lock one client twice
  (server.go:636-641).
- Signaling.Server.InboundIncoming: excludes an INCOMING whose call id was seen before, which the source accepts,
  overwriting the leg that has it (bridge.go:359-466).
- Federation.Agreement: is about calls between two different exchanges; a call to a service number that the
  registry resolves to the caller's own server (`startServiceCall`, bridge.go:143-188) has both its legs in one, and
  is no move of the model.
- Federation.NextKeeps: leaves out such calls too.
- StrayCalls.ServiceClientIff: is about runs that disturb no other table (`OneCallPerLine.UndisturbedRun`), as are
  `GoneIsForgotten` and `RingersAreInTheirCall`; `RunLinesIff` says which those are.
- Splitting `onInboundRingTimeout` at its unlock (bridge.go:487), where an answer or decline can slip in.
- Identity of leg and client objects: legs are values in a map, so a handler that still holds a leg after it
  left the map is not modelled.
- `expirePendingCalls` is one step for each expired entry, not one sweep; which entry has expired is left open.
- Whether a push is sent, voicemail or a hosted service answers, a server can be reached and a stream accepts a
  message are free choices. Drops from a full send buffer are modelled for messages, not for call signalling.
- Freshness of `generateCallID` is assumed, and so is that clients answer only calls they were offered.
- SDP bodies, caller names, ICE servers, service names, error texts and the error code of a failed cross-server
  call. An ANSWER or ICE event is taken to
  carry its description or candidate; one without is passed over by the source.
- Authentication, token registration, `startServiceCall` apart from what it shares with `startCrossCall`,
  hosting 800 and 900 numbers beyond accepting or refusing, WebRTC, gRPC and WebSocket transport.
- Signaling.Server.HandleCallAnswer: takes the answered caller from any of the sockets in the call, as the
  loop over a map does; which one is not determined.

Messaging:

- Image bytes: a redelivered message replaces the record, unread and without its image; only that the record is
  there is proved. A crash before the phone's store is on disk.
- The order in which a flush finds queued messages, sealing and size limits of envelopes, conversations in the
  order of `messagesFor`, and renumbering or deleting a line with messages queued.
- MessageContents.DeliveredAsSent: is about ids under which one message is stored, by one server or again by the
  same; nothing keeps two servers from using one id for two messages. Sender names and the name and type of an
  image are not modelled.
- StoreAndForward.NothingLost: messages from another server count as told "delivered" when the reply to the
  relaying server arrives; the sender's own copy of that reply is not followed further.

Ogg and Opus:

- Ogg.ParseOggOpus: packets that continue on the next page are not put together, as the parser does not either.
- Encoding and decoding of Opus, and the pacing of playback.

Numbering:

- SQL, hashing, signatures and the encoding of keys; the listing, counting and search queries.

Edges:

- Conference.Mixer.Tick: joining, leaving, receiving and the Opus encoder are not part of it; a tick is given the
  latest frames of the active participants in some order.
- SoftphoneIce.CandidatesInOrder: holds in the runs in which late callbacks find what they have to;
  `NextSoundIff`, `NotMetSpoils` and `NeverLost` are about all others. A callback that finds no active call does
  nothing, where the source throws. Call history, ringing and the user interface are not modelled.
- VoicemailRecorder.Record: decoding, jitter and time are not modelled.
- The reconnect and backoff loop of the softphone, the admin panels, configuration and deployment.
