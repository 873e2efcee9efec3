# Verified model of the xknx protocol layers

A Dafny model of the stateful protocol layers of xknx, a KNX/IP client, and of the codecs under
them, with proofs over all inputs and all runs. `dafny verify dfyconfig.toml` checks everything.

Conventions:

* A task is a program counter; one event is one piece of code between two awaits. Runs are
  sequences of enabled events (`Legal`, `Exec`); a main result speaks of every run.
* An object of the source that updates its fields is a class. Each method's contract equates the
  new state, as a value (`View()`), with the step function of the event; the lemmas then speak of
  the step functions. Histories (frames sent, telegrams finished, ...) are kept beside the state.
* Counters wrap as in the code (modulo 256, 16, 2^48). Exceptions are `Err(...)` results.
* Time is whole milliseconds or real seconds; floats are reals with explicit round-half-even.

| file | what it holds |
|---|---|
| `Bytes`, `Rounding`, `ParseLoops` | octets, big-endian numbers, exclusive or; `round()`; the list loops `while raw[pos:]` and when they end |
| `SecurityPrimitives`, `SecureLayer`, `SecureSession` | CTR and CBC-MAC around an arbitrary block cipher, `encrypt_frame`/`decrypt_frame`, the secure session |
| `SecureTimer`, `SecureGroup` | the sequence timer of secure multicast and any number of devices that pull each other forward |
| `Tunnel`, `TunnelSafety`, `TunnelEnvironment` | the UDP tunnel as a two-endpoint protocol |
| `TunnelTasks`, `TunnelSender` | its reconnect, timer and heartbeat tasks, and `send_cemi` interleaved with them |
| `TunnelWire` | both together: what `send_cemi` sends, across its reconnects, over the channels to the other endpoint |
| `TelegramQueue`, `QueueStarts` | consumer, rate limiter, shutdown; limiter loops that are started in any state |
| `RoutingFlowControl`, `ManagementConnection` | routing pauses; point-to-point connections |
| `KnxIpFrame`, `CoreBodies`, `TunnellingBodies`, `RoutingBodies`, `SecureBodies` | KNX/IP frames with all body classes |
| `TcpStream`, `Dib`, `Srp`, `Cemi`, `TransportControl` | the TCP stream; the lists and messages in frames |
| `Dpt9`, `Scaling`, `TravelCalculator`, `Cover` | numeric codecs and cover positions |

## Where the code does not do what its documentation, or a reader, expects

Each is proved with the exact condition under which the code is right, and by a run or an input
where it is not.

* UDP tunnel: an ack ends a try whatever channel and counter it carries
  (xknx/io/request_response/request_response.py:69-91). So `send_cemi` may return for a lost frame,
  and after 256 stale acks payloads are skipped (`WrapSkipsPayloads`). With acks that match their
  request every run is correct (`MatchedRunsAreCorrect`); without that assumption, exactly over
  networks that neither duplicate nor deliver later than the timeout (`AlwaysCorrectIffPrompt`).
* UDP tunnel: the same holds for `send_cemi` with all its tasks (`MatchedSendsAreCorrect`), with one more
  condition under auto_reconnect: when `disconnect()` cancels the reconnect that a send awaits, no further
  send begins before that `disconnect()` has closed the connection (`SendsAlwaysCorrectIff`). Without it
  256 sends can be refused and given up on one connection, and the next is taken for the first
  (`OvertakingSkipsPayloads`).
* UDP tunnel: a DisconnectRequest in the middle of a user's `connect()` starts a reconnect beside
  it; both take the one ConnectResponse for theirs and start a heartbeat each, of which only one can
  be stopped (`TwoHeartbeats`). At most one task of each kind lives on all runs exactly without
  auto_reconnect or without that interruption (`AlwaysOneOfEachIff`).
* UDP tunnel: `_send_ready` promises not to drop frames while reconnecting. That holds for what is sent
  from then on, but not for a send with a try under way (`OnlyTheTryIsDropped`): it is dropped when its
  first try fails and the channel is gone, or when its third try fails, and only then
  (`DroppedWhilePendingIff`, `DroppedWhileReconnecting`, `ThirdTryDroppedWhileReconnecting`). `DroppedIff`
  has the condition for every step, with no reconnect pending or with one that has just ended, too.
* UDP tunnel: a send that is under way when a connection is established, and ends without a request
  on it, still counts on it. Exactly then the connection's counters start from 1 instead of 0, and
  the server drops the requests (`InSequenceIff`, `CountersOnConnection`, `EndsLateIff`); a third try
  that fails across a quick reconnect does this with no stale ack at all (`LateEndSkipsZero`).
* TCP transport: the callback raises nothing exactly when the data is whole frames and at most the
  beginning of one, and the stack has room for a nested call per frame (`RaisesNothingIff`,
  `StreamArrives`). A frame that cannot be parsed raises UnboundLocalError and loses what stands
  behind it (`RefusedFrameLosesTheRest`, `UnsupportedServiceIsRefused`). A frame whose header
  announces length zero is handled again on every level of the recursion until RecursionError
  (`ZeroLengthHeaderRepeats`, `ZeroLengthRoutingIndication`); a description whose list of blocks
  never ends keeps the callback from returning (`EndlessDescription`).
* DIBs: an unknown type code raises ValueError, which is no parse error of the library, and with it
  the whole list, although the module promises `DIBGeneric` as a fallback (xknx/knxip/dib.py:10-11);
  known codes without a class get it (`GenericIff`, `UnknownTypeRefusesTheList`). A length octet of
  0 repeats the list loop for ever, and nothing else does (`DibLoopTerminatesIff`,
  `ZeroLengthNeverEnds`, `ZeroLengthManufacturerData`). Generic data of odd length comes back padded
  (`DibRoundTripIff`).
* SRPs: the list loop advances by the payload size of the type; that is the announced length exactly
  for the header octets of `AdvanceIsAnnouncedIff`. Otherwise surplus octets are read again as the
  next parameters (`SurplusDataIsReadAgain`), and such a parameter does not come back from its own
  octets (`ConstructedRoundTripIff`).
* Telegram queue: `stop()` cancels the sleep of the rate limiter but keeps it in the field; in a
  queue started again the limiter dies on the first limited telegram exactly when it had exited for
  the first time less than one interval after the last limited send (`LimiterDiesIff`,
  `RestartKills`). While the queue is not started again nothing is sent from then on, and the consumer
  never ends (`DeadForever`); however it is started again, no limited telegram is ever sent
  (`NoLimitedSendAfterDeath`). A start() beside a running loop lets two limited telegrams go out in
  one instant (`TwoLoopsSendAtOnce`); with a rate limit the interval is kept on all runs exactly
  without that (`AlwaysKeepsIntervalIff`).
* Routing: a frame is sent in a pause exactly when a woken sender goes on after a busy frame that was
  handled since the last pause ended (`SentInPauseIff`, `SentInPause`). Runs without that are on time
  (`UninterruptedIsOnTime`), and so are all runs exactly when woken senders run first
  (`NeverSentInPauseIffPrompt`).
* Management: data without a sequence number is accepted as the response when number 0 is expected
  (`UnnumberedAcceptedIff`). An ack raises InvalidStateError exactly when the waiter of the current
  try is used up (`SecondAckRaisesIff`, `SecondAckRaises`), and a TDisconnect raises it exactly when a
  telegram awaits its ack and the response waiter is done, as after a response that overtook the ack
  (`DisconnectRaisesIff`, `DisconnectRaises`). A TDisconnect does not stop the repeat of
  an unacknowledged telegram: once disconnected, nothing is sent again exactly when no first try is
  open (`QuietAfterDisconnectIff`), and the one step that sends is that repeat
  (`TransmitsWhenDisconnectedIff`, `RepeatsAfterDisconnect`).
* Secure timer: a notify whose value exceeds 48 bits raises and leaves nothing pending
  (`ConsistentStepIff`, `OverflowLeavesNothingPending`).
* Bodies: a connect response with an error status does not come back, its endpoint and data are not
  read (`ConnectResponseRoundTripIff`); feature data of odd length comes back padded (`RoundTripIff`).
* cEMI: a TAck or TNak octet without its number bit (0x82, 0x83) is read as numbered and serialises
  as 0xC2, 0xC3; an NPDU of 255 octets parses but does not serialise (`ReserialisedLData`); the
  error code 0x00 of a write response is dropped (`PropRoundTripIff`); a hop count of 8 sets the
  group address flag, and exactly counts below 8 change the hop bits alone (`WithHopsIff`,
  `EightHopsAddressAGroup`).
* DPT 9: classes bounded by 670760 refuse payloads they encode themselves, exactly above 670597.12
  (`UpperLimitRefusesIff`, `BothLimitsRefuseIff`).
* Travel calculator: asked in the very instant of its timestamp a stopped cover divides by zero
  (`DividesByZeroIff`); no run raises exactly when the clock advances between calls
  (`NeverRaisesIffAdvancing`).

## Assumptions

* AES is an arbitrary function from key and 16-octet block to a 16-octet block. In the session
  result the assumption on the cryptography is explicit: only wrappers made by the peer's
  `encrypt_frame` verify (`OnlySentWrappersVerify`).
* The devices of a multicast group share one millisecond tick; `connect()` synchronizes once.
* In the tunnel protocol the number of a send stands for its payload; the other endpoint runs the
  same receiving algorithm. The user calls `connect()` once; the ConnectRequest is answered or times
  out within 1 s, before a timer of 2 s armed meanwhile.
* In `TunnelWire` frames in flight are gone with their connection, and every granted connect gives one
  of its own at the server, which expects counter 0. How long a `disconnect()` takes is left open.
* A request sent after a reconnect task has ended is not answered before the callbacks of that task,
  which are queued already, have run.
* In `TelegramQueue` start() is called when both loops have ended; `QueueStarts` does without this.
* A nested call of the TCP callback either fits on the stack as a whole or fails before it does anything.
* One sender at a time in routing, one request at a time on a management connection.
* An accepted APDU serialises to its own octets; which APDUs are refused is a parameter.
* `time.time()` is read once per call of the travel calculator and does not run backwards.

## Model

| member | source | states |
|---|---|---|
| SecurityPrimitives.BytePad | xknx/secure/util.py:20-24 | the result is the data followed by fewer zero octets than a block, and its length is a multiple of the block size |
| SecurityPrimitives.IntegerXorIsPointwise | xknx/secure/util.py:9-17 | the exclusive or taken on big-endian integers is the octet-wise one, so leading zero octets survive |
| SecurityPrimitives.CbcLastBlockIsFold | xknx/secure/security_primitives.py:13-29 | the last block of a CBC encryption with zero IV is the fold that defines CBC-MAC |
| SecurityPrimitives.MacStartsWithBlock0 | xknx/secure/security_primitives.py:13-29 | the MAC is the chain over block 0 first, then over length-prefixed additional data and payload, zero padded |
| SecurityPrimitives.DecryptUndoesEncrypt | xknx/secure/security_primitives.py:32-69 | decryption restores MAC and payload for every key, counter and length |
| SecurityPrimitives.CtrIsBlockwise | xknx/secure/security_primitives.py:52-69 | a running CTR context at a block boundary continues like a fresh one started at that block |
| SecurityPrimitives.MacTakesBlock0PayloadTheRest | xknx/secure/security_primitives.py:52-69 | a 16-octet MAC takes exactly counter block 0 and the payload starts at counter block 1 |
| SecureLayer.LiteralHeaderAgrees | xknx/io/ip_secure.py:117-165 | the literal header and the 38 octets it adds are what the finished wrapper frame carries |
| SecureLayer.EncryptSucceedsIff | xknx/io/ip_secure.py:117-165 | a frame is wrapped exactly when it has at most 65497 octets; otherwise OverflowError |
| SecureLayer.DecryptUndoesWrap | xknx/io/ip_secure.py:76-165 | unwrapping what encrypt_frame made gives the frame back |
| SecureLayer.WrapRoundTrip | xknx/knxip/secure_wrapper.py:58-87 | for every key, session, number, tag and frame that fits, the wrapper serialises, parses back in front of anything, and unwraps to the original frame |
| SecureLayer.WrapperOctets | xknx/io/ip_secure.py:117-165 | for every frame that fits, octet by octet: the header with the total length, session, sequence information, serial number and tag, the data encrypted from the block after that of the MAC, and the MAC over B_0 with the payload length, the header and the frame |
| SecureLayer.MacPassesIff | xknx/io/ip_secure.py:76-115 | a wrapper passes exactly when it is of the session and has the MAC that this gives for what its data decrypts to |
| SecureLayer.TimerNotifyVerifiesIff | xknx/io/ip_secure.py:658-719 | a timer notify verifies exactly with the MAC that any member with the key makes, octet by octet |
| SecureLayer.CounterBlocksDistinct | xknx/io/ip_secure.py:117-165 | two octets of MAC or payload of any two frames of a session, of any length that can be wrapped, share a counter block exactly when they are in the same block of the frame with the same number |
| SecureTunnellingSession.SequenceNumbersCount | xknx/io/ip_secure.py:380-384 | the i-th number is the i-th from the start, in six octets, while that fits them; from then on every call raises |
| SecureTunnellingSession.NeverReused | xknx/io/ip_secure.py:380-384 | no number is used for two frames of a session |
| SecureTunnellingSession.SecureSession.BeginConnect | xknx/io/ip_secure.py:220-225 | both counters start from zero |
| SecureTunnellingSession.ResponseAcceptedIff | xknx/io/ip_secure.py:261-290 | a session response passes exactly when a device with the same authentication code made its MAC for these public keys and this session |
| SecureTunnellingSession.HandshakeOctets | xknx/io/ip_secure.py:260-309 | what the two MACs of the handshake cover and how they are made, octet by octet |
| SecureTunnellingSession.SessionOctets | xknx/io/ip_secure.py:117-165 | the octets of the session's frame with any number: six octets of the number, serial number 00 00 "xknx" and tag 00 00 |
| SecureTunnellingSession.SecureSession.SessionAnswered | xknx/io/ip_secure.py:230-311 | the session, its key and the MAC to authenticate with, or what is raised and what of it is set by then |
| SecureTunnellingSession.SecureSession.AuthenticationAnswered | xknx/io/ip_secure.py:239-255 | raises nothing exactly for the status of success |
| SecureTunnellingSession.SecureSession.GetSequenceInformation | xknx/io/ip_secure.py:380-384 | returns the number in six octets and counts up, or raises OverflowError and leaves the counter |
| SecureTunnellingSession.SecureSession.Encrypt | xknx/io/ip_secure.py:117-165 | the frame encrypted under the next number, which is used up even when the result does not fit |
| SecureTunnellingSession.SecureSession.HandleKnxIpFrame | xknx/io/ip_secure.py:326-357 | forwards what unwraps with a higher number than any before, and then remembers that number; everything else leaves the counter |
| SecureTunnellingSession.HandledIff | xknx/io/ip_secure.py:326-357 | in every state of a session, exactly which wrappers are forwarded, dropped without a word, or raise |
| SecureTunnellingSession.OneArrival | xknx/io/ip_secure.py:326-357 | a rejected wrapper changes nothing; a forwarded one is the peer's frame of a number higher than every one before |
| SecureTunnellingSession.ForwardedIsSubsequence | xknx/io/ip_secure.py:326-357 | under loss, duplication, reordering and injection the forwarded frames are an in-order, duplicate-free subsequence of those sent |
| SecureTunnellingSession.FaithfulChannelForwardsAll | xknx/io/ip_secure.py:326-357 | an undisturbed channel forwards every frame |
| SecureTunnellingSession.PeerTransmits | xknx/io/ip_secure.py:117-165 | what a peer's encrypt_frame produces is such a transmission |
| SecureTimer.Delay | xknx/io/ip_secure.py:617-645 | a drawn delay lies in the window of its kind |
| SecureTimer.KeeperBeforeFollowerIff | xknx/io/ip_secure.py:567-595 | every keeper delay is below every follower delay of the same kind exactly when the rounded tolerance is positive, that is above 5 ms of latency |
| SecureTimer.SecureSequenceTimer.RescheduleNotify | xknx/io/ip_secure.py:617-645 | replaces the pending notify by one of the drawn delay and records its kind |
| SecureTimer.SecureSequenceTimer.ValidateSecureWrapper | xknx/io/ip_secure.py:747-769 | events E5 to E8: whether the wrapper is fresh, and the new offset and schedule |
| SecureTimer.SecureSequenceTimer.HandleTimerNotify | xknx/io/ip_secure.py:771-810 | events E1 to E4 and E11, with an invalid MAC and an answered synchronization |
| SecureTimer.SecureSequenceTimer.NotifyTimerExpired | xknx/io/ip_secure.py:647-656 | becomes timekeeper and schedules the next notify, or raises with nothing pending any more |
| SecureTimer.SecureSequenceTimer.GetForOutgoingSecureWrapper | xknx/io/ip_secure.py:812-817 | the current timer value, with the schedule of event E9 |
| SecureTimer.SecureSequenceTimer.BeginSynchronization | xknx/io/ip_secure.py:721-745 | expects an answer to its own tag |
| SecureTimer.SecureSequenceTimer.EndSynchronization | xknx/io/ip_secure.py:721-745 | takes the answered value, or becomes timekeeper after the timeout; authenticated either way |
| SecureGroup.RunStaysWithin | xknx/io/ip_secure.py:609-817 | no run of any number of devices raises the maximum clock offset, stamps in flight and pending answers included |
| SecureGroup.OffsetDecreasesIff | xknx/io/ip_secure.py:721-745 | only an answer older than the own timer turns a device back |
| SecureGroup.SettledRun | xknx/io/ip_secure.py:455-494 | an authenticated device stays so, and its offset never decreases |
| SecureGroup.ForwardedIff | xknx/io/ip_secure.py:747-769 | a wrapper is forwarded exactly when its stamp exceeds the local timer minus the latency tolerance |
| SecureGroup.RefusedForever | xknx/io/ip_secure.py:455-494 | a wrapper once refused as too old is refused at every later time of the run |
| SecureGroup.ReceiptPullsForward | xknx/io/ip_secure.py:747-810 | a received frame raises the offset to its stamp, aged by the time in flight, or leaves it |
| SecureGroup.GroupConverges | xknx/io/ip_secure.py:609-817 | a device that receives the maximum holder's frame after delay d is within d of the maximum then and for the rest of the run |
| SecureGroup.NotifyArrives | xknx/io/ip_secure.py:771-810 | after every run, a genuine notify: a fresh one makes the device a follower with its periodic notify 10000 + 4s to 10000 + 14s ms away, one too old has an update notify scheduled with its tag and serial unless one is pending, one in between changes nothing; the own answer is only kept |
| SecureGroup.WrapperArrives | xknx/io/ip_secure.py:747-769 | after every run, a genuine wrapper: the same schedules unless an update notify is pending, the role unchanged |
| SecureGroup.NotifyFires | xknx/io/ip_secure.py:647-663 | after every run, a notify that is due goes out with the tag and serial it was scheduled for and the local timer value, and the device is keeper with the next one 10000 to 10000 + 3s ms away |
| SecureGroup.Synchronizes | xknx/io/ip_secure.py:721-745 | after every run, the synchronization: its own notify, the answered value or the keeper's role, and the schedule |
| SecureGroup.WrapperSent | xknx/io/ip_secure.py:812-817 | after every run, a wrapper sent carries the local timer value and puts off a periodic notify alone |
| SecureGroup.RunFollowsPlan | xknx/io/ip_secure.py:617-817 | on every run a device is keeper by the last event that made it one or stepped it back, and its pending notify is the last one scheduled, due in the window of its kind and of the role the device had then |
| SecureGroup.ConsistentRun | xknx/io/ip_secure.py:617-656 | while no notify is due whose value exceeds 48 bits, an authenticated device always has a notify pending, of the kind its flag says |
| SecureGroup.ConsistentStepIff | xknx/io/ip_secure.py:617-656 | a step loses the pending notify exactly when the timer fires with a value beyond 48 bits |
| SecureGroup.OverflowLeavesNothingPending | xknx/io/ip_secure.py:647-663 | after such a notify an authenticated device has nothing pending |
| TunnelSafety.MatchedRunsAreCorrect | xknx/io/tunnel.py:518-598 | on every run over a lossy, duplicating FIFO channel whose accepted acks match, through any number of wraps and reconnects, the delivered payloads are a prefix of those transmitted on the connection, nothing is delivered out of order, and every send that returned was delivered |
| TunnelSafety.ServerDecides | xknx/io/tunnel.py:644-683 | modulo 256 the receiver takes exactly the next undelivered transmission, acknowledges the one before again and drops the rest |
| TunnelSafety.SecondFailure | xknx/io/tunnel.py:550-562 | after a second failure the send and the connection end without auto_reconnect, and otherwise go on until the reconnect |
| TunnelSafety.StepKeeps | xknx/io/tunnel.py:518-683 | every step keeps the relation between counters, frames in flight and histories |
| TunnelEnvironment.AlwaysCorrectIffPrompt | xknx/io/request_response/request_response.py:69-91 | without the assumption on acks every run is correct exactly over networks that neither duplicate requests nor acks nor deliver after the timeout |
| TunnelEnvironment.DuplicatedAckBreaks | xknx/io/request_response/request_response.py:69-91 | a duplicated ack lets a send return that was not delivered |
| TunnelEnvironment.DuplicatedRequestBreaks | xknx/io/request_response/request_response.py:69-91 | so does a duplicated request, which is acknowledged twice |
| TunnelEnvironment.LateTimeoutBreaks | xknx/io/request_response/request_response.py:69-91 | so does an ack that comes after the timeout |
| TunnelEnvironment.WrapSkipsPayloads | xknx/io/tunnel.py:359-361 | after 256 stale acks the counter has wrapped and delivery skips payloads |
| TunnelTasks.AlwaysOneOfEachIff | xknx/io/tunnel.py:154-214 | on all runs at most one reconnect, timer and heartbeat live, and no timer from a reconnect's cleanup on, exactly unless auto_reconnect is on and a DisconnectRequest may interrupt a user's connect() |
| TunnelTasks.TwoHeartbeats | xknx/io/tunnel.py:386-415 | the run with the interrupted connect() that ends with two live heartbeats |
| TunnelTasks.StepKeepsDiscipline | xknx/io/tunnel.py:154-234 | every other step keeps the fields naming exactly the live tasks |
| TunnelTasks.LossAfterFourFailuresOrNoChannel | xknx/io/tunnel.py:417-443 | with no reconnect pending the heartbeat declares loss exactly when there is no channel to ask about or the response is the fourth failure in a row |
| TunnelTasks.ReconnectResetsCounters | xknx/io/tunnel.py:497-505 | after every run the receive counter is the number, modulo 256, of in-sequence requests since the latest ConnectRequest went out, and the send counter that of the sends ended since a tunnel was last established, both counted on the events alone |
| TunnelTasks.StateFollowsEvents | xknx/io/tunnel.py:154-232 | after every run the events alone tell whether there is a channel, an open transport, a pending reconnect, a heartbeat, and an armed timer: one that a request neither next nor the one before started with no reconnect pending, and nothing has settled since |
| TunnelTasks.ReconnectGoesThrough | xknx/io/tunnel.py:184-207 | after every run, where a reconnect stands next: it disconnects first exactly when the transport is open, and tries until a channel is granted |
| TunnelTasks.TimerIsArmedIff | xknx/io/tunnel.py:606-683 | so, while the fields name the live tasks, the timer, a heartbeat and a reconnect are there exactly then |
| TunnelTasks.TakenBeforeResponse | xknx/io/tunnel.py:644-656 | the run in which a request is taken while a reconnect awaits its ConnectResponse, so that the receive counter is no longer zero |
| TunnelTasks.UdpTunnel.TunnellingRequestReceived | xknx/io/tunnel.py:644-683 | counter, acks, payloads handed on, and the timer armed or cancelled |
| TunnelTasks.UdpTunnel.CancelInvalidSequenceSchedule | xknx/io/tunnel.py:637-642 | the timer's task is gone and its field empty |
| TunnelTasks.UdpTunnel.ScheduleInvalidSequence | xknx/io/tunnel.py:606-635 | arms a timer exactly when there is neither a timer nor a reconnect |
| TunnelTasks.UdpTunnel.StopHeartbeatTask | xknx/io/tunnel.py:411-415 | the heartbeat's task is gone and its field empty |
| TunnelTasks.UdpTunnel.StartHeartbeatTask | xknx/io/tunnel.py:407-409 | a new heartbeat; one that the field still names is not cancelled |
| TunnelTasks.UdpTunnel.DoPrepareDisconnect | xknx/io/tunnel.py:507-510 | timer and heartbeat are cancelled |
| TunnelTasks.UdpTunnel.DoTunnelLost | xknx/io/tunnel.py:154-182 | starts at most one reconnect, or without auto_reconnect stops everything and sends a DisconnectRequest for an open channel |
| TunnelTasks.UdpTunnel.DoTunnelEstablished | xknx/io/tunnel.py:149-152 | the send counter is zero and a heartbeat runs |
| TunnelSender.CountersOnConnection | xknx/io/tunnel.py:518-576 | after every run of sends, reconnects, timers and heartbeats the requests of the current connection belong to consecutive sends, with counters from 0, or from 1 exactly after a late end; a third try is the first of its connection |
| TunnelSender.InSequenceIff | xknx/io/tunnel.py:359-361 | they carry the counters the server expects exactly unless one follows a send that was under way when the connection was established and ended without a request on it |
| TunnelSender.EndsLateIff | xknx/io/tunnel.py:536-576 | the steps that end a send like that: an ack, a failed third try, a cancelled reconnect |
| TunnelSender.LateEndSkipsZero | xknx/io/tunnel.py:563-576 | the run in which a third try fails across a quick reconnect and the next request carries 1, which the server drops |
| TunnelSender.AwaitsTheReconnect | xknx/io/tunnel.py:317-327 | a send that waits for a reconnect waits for the one that is pending and live, on every run |
| TunnelSender.SendCanEnd | xknx/io/tunnel.py:317-327 | from every state a send can end within twelve steps of the reconnects it waits for and an ack: lock, reconnect and heartbeat do not block each other |
| TunnelSender.DroppedIff | xknx/io/tunnel.py:518-576 | on every run and for every step, exactly when it drops a send: at the beginning, at a failed first, second or third try, or when the reconnect it awaited has ended or was cancelled |
| TunnelSender.DroppedWhilePendingIff | xknx/io/tunnel.py:317-327 | while a reconnect is pending a step drops a send exactly when it is the failure of a first try without a channel or of a third try |
| TunnelSender.OnlyTheTryIsDropped | xknx/io/tunnel.py:317-327 | over every run with a reconnect pending nothing is dropped but, at most, the send whose try was under way at its beginning: later sends wait |
| TunnelSender.EverySendIsAccounted | xknx/io/tunnel.py:518-576 | over every run each send is under way, has returned, or has met one of those reasons, and only one of these |
| TunnelSender.DroppedWhileReconnecting | xknx/io/tunnel.py:317-327 | the run in which a frame is dropped after its first try while a reconnect is pending |
| TunnelSender.ThirdTryDroppedWhileReconnecting | xknx/io/tunnel.py:568-573 | the run in which a frame is dropped after its third try while a reconnect is pending |
| TunnelSender.RunIsTasks | xknx/io/tunnel.py:154-214 | on every such run the tunnel's tasks make a run of `TunnelTasks`, so its results hold |
| TunnelWire.StepOnWire | xknx/io/tunnel.py:518-576 | each step of `send_cemi`, the tunnel's tasks and the channels is a piece of a run of the two-endpoint protocol, from corresponding to corresponding states |
| TunnelWire.MatchedSendsAreCorrect | xknx/io/tunnel.py:518-576 | with reconnects, timers, heartbeats, connect() and disconnect() interleaved, every run whose accepted acks match, and in which no send overtakes a disconnect() that cancelled an awaited reconnect, is such a run, so delivery is in order without duplicates and a returned send was delivered |
| TunnelWire.DeliveredOrDropped | xknx/io/tunnel.py:518-576 | on every such run each send that is over was delivered, or was dropped for one of the reasons of `DroppedIff` and did not return |
| TunnelWire.SendsAlwaysCorrectIff | xknx/io/request_response/request_response.py:69-91 | all runs of `send_cemi` are correct exactly over networks that neither duplicate nor deliver later than the timeout, and without auto_reconnect or without such overtaking sends |
| TunnelWire.OvertakingSkipsPayloads | xknx/io/tunnel.py:221-229 | the run with 256 sends refused and given up while disconnect() has not closed the connection, after which the server delivers send 256 as the first |
| TunnelSender.CemiSender.SendCemi | xknx/io/tunnel.py:317-327 | with the lock: a pending reconnect is awaited, otherwise the tries begin |
| TunnelSender.CemiSender.TunnellingRequest | xknx/io/tunnel.py:342-353 | the request with channel and counter, or the end of the send without a channel or transport |
| TunnelSender.CemiSender.TryFrom | xknx/io/tunnel.py:536-549 | a first or second try, with those behind it that fail at once on a closed transport |
| TunnelSender.CemiSender.AfterTwoFailures | xknx/io/tunnel.py:550-573 | the tunnel is lost unless a reconnect is pending, which is then awaited; without one the send ends |
| TunnelSender.CemiSender.TryFailed | xknx/io/tunnel.py:536-576 | the repeat, what follows two failures, or the end |
| TunnelSender.CemiSender.Acknowledged | xknx/io/tunnel.py:536-576 | the send returns and the counter goes up |
| TunnelSender.CemiSender.ReconnectEnded | xknx/io/tunnel.py:555-576 | the third try after success, the end after cancellation; a send that had not begun goes on either way |
| TelegramQueue.FinishedOnceAndInOrder | xknx/core/telegram_queue.py:136-204 | on every run the finished telegrams of each direction are a duplicate-free prefix of those put, whatever their processing raised; both unfinished counts are exact and never negative |
| TelegramQueue.StepKeeps | xknx/core/telegram_queue.py:136-204 | every step keeps conservation, counts, sentinel placement and spacing |
| TelegramQueue.EndedMeansDrained | xknx/core/telegram_queue.py:128-145 | across stops and restarts: whenever the consumer has ended, exactly what was put before the stop it honoured is finished, and the counts cover only later puts |
| TelegramQueue.ShutdownIsBounded | xknx/core/telegram_queue.py:128-185 | after stop() the loops take at most a number of steps fixed at that moment, whatever is put meanwhile, and both have ended exactly when it is used up |
| TelegramQueue.ShutdownProgresses | xknx/core/telegram_queue.py:128-185 | until then one of the loops can step, if need be after the limiter's sleep, unless the limiter has died |
| TelegramQueue.SendsKeepTheRate | xknx/core/telegram_queue.py:180-188 | the j-th limited send starts at least (j - i) / rate_limit after the i-th |
| TelegramQueue.LimiterFollowsRate | xknx/core/telegram_queue.py:169-205 | on every run an internal telegram is sent as soon as it is taken and delays nothing; a limited one awaits a sleep that is over exactly 1 / rate_limit after the last limited send |
| TelegramQueue.LimiterDiesIff | xknx/core/telegram_queue.py:122-188 | on every run with any restarts the limiter dies on the telegram it takes exactly when that is limited and its first exit came less than an interval after the last limited send |
| TelegramQueue.DeadForever | xknx/core/telegram_queue.py:169-204 | once it has died nothing is sent and the consumer never ends, unless the queue is started again |
| TelegramQueue.RestartKills | xknx/core/telegram_queue.py:122-188 | for every positive rate, the run with a stop and a start that ends so |
| TelegramQueueStarts.NeverSendsLimitedIff | xknx/core/telegram_queue.py:122-188 | with start() called in any state and any number of times: once a cancelled sleep is in the field, no limited telegram is ever sent again exactly when no loop awaits an older sleep |
| TelegramQueueStarts.NoLimitedSendAfterDeath | xknx/core/telegram_queue.py:122-188 | that is so after every run of the queue in which the limiter died |
| TelegramQueueStarts.TakesThen | xknx/core/telegram_queue.py:169-188 | a loop started then ends on a limited telegram and sends the others |
| TelegramQueueStarts.AlwaysKeepsIntervalIff | xknx/core/telegram_queue.py:122-188 | with start() and stop() in any order, limited telegrams go out at least one interval apart on all runs exactly without a rate limit or when no start() comes beside a live loop |
| TelegramQueueStarts.TwoLoopsSendAtOnce | xknx/core/telegram_queue.py:122-188 | for every positive rate, the run in which two loops send limited telegrams in one instant |
| TelegramQueueStarts.RateLimiters.StartQueue | xknx/core/telegram_queue.py:122-126 | in any state one more loop begins, and nothing else changes: the field keeps its sleep |
| TelegramQueueStarts.RateLimiters.LoopGets | xknx/core/telegram_queue.py:169-188 | any loop exits on the sentinel and cancels the sleep in the shared field, ends on a cancelled one, awaits it, or sends |
| TelegramQueueStarts.RateLimiters.LoopWakes | xknx/core/telegram_queue.py:184-188 | whichever sleep it awaited, a loop that wakes sends and replaces the sleep in the field |
| TelegramQueue.TelegramQueue.PutTelegram | xknx/core/telegram_queue.py:136-139 | a telegram enters the queue and is counted |
| TelegramQueue.TelegramQueue.StopQueue | xknx/core/telegram_queue.py:128-134 | a sentinel enters the queue and is counted |
| TelegramQueue.TelegramQueue.StartQueue | xknx/core/telegram_queue.py:122-126 | when both loops have ended they start anew, with the queues and the limiter's field as they were left |
| TelegramQueue.TelegramQueue.ConsumerGets | xknx/core/telegram_queue.py:136-167 | hands outgoing telegrams on, keeps an incoming one, and passes the sentinel on before it joins |
| TelegramQueue.TelegramQueue.ConsumerIncomingDone | xknx/core/telegram_queue.py:149-164 | task_done() once, whatever was raised |
| TelegramQueue.TelegramQueue.ConsumerJoins | xknx/core/telegram_queue.py:141-145 | ends, and counts the sentinel as done |
| TelegramQueue.TelegramQueue.LimiterGets | xknx/core/telegram_queue.py:169-188 | ends on the sentinel, sends at once, or awaits the sleep |
| TelegramQueue.TelegramQueue.LimiterWakes | xknx/core/telegram_queue.py:180-188 | a new sleep of one interval starts with the send |
| TelegramQueue.TelegramQueue.LimiterOutgoingDone | xknx/core/telegram_queue.py:190-204 | both task_done() calls, whatever was raised |
| RoutingFlowControl.PauseDiscipline | xknx/io/routing.py:82-142 | on every run: not ready exactly while a wait start is recorded; the base deadline is the latest arrival + wait_time of the pause; 20 ms spacing; nothing sent before the time of a frame received before readiness was seen |
| RoutingFlowControl.NeverSentInPauseIffPrompt | xknx/io/routing.py:82-94 | no run sends before the time of any busy frame received, exactly when woken senders run before further busy frames |
| RoutingFlowControl.SentInPauseIff | xknx/io/routing.py:82-142 | on every run a sending step sends in a pause exactly when it is a woken sender and the latest end of a pause lies before the latest busy frame |
| RoutingFlowControl.ReadyIff | xknx/io/routing.py:96-142 | sending is allowed exactly when no busy frame came since the last end of a pause |
| RoutingFlowControl.UninterruptedIsOnTime | xknx/io/routing.py:82-142 | a run in which no woken sender is overtaken like that sends nothing before the time of any busy frame received |
| RoutingFlowControl.SentInPause | xknx/io/routing.py:241-251 | the run in which a frame is sent in a pause |
| RoutingFlowControl.IncrementsTakeTime | xknx/io/routing.py:96-118 | n increments of the count imply more than n * 10 ms between busy frames |
| RoutingFlowControl.CountIsExact | xknx/io/routing.py:98-114 | on every run the count is the number of busy frames that came in a pause more than 10 ms after the one before, less the steps of the fade-out |
| RoutingFlowControl.WaitIsMeasured | xknx/io/routing.py:98-133 | on every run the recorded wait is that of the first frame of the pause, or of the first one since whose time ends later |
| RoutingFlowControl.TimerFollowsCount | xknx/io/routing.py:135-148 | on every run the pause lasts that wait and random * count * 50 ms, the slow phase 100 ms a count, and a busy frame starts the timer anew exactly when its time ends later |
| RoutingFlowControl.FadesSlowly | xknx/io/routing.py:146-148 | each step of the fade-out comes at least 5 ms after the one before |
| RoutingFlowControl.SenderWaits | xknx/io/routing.py:82-95 | on every run a sender waits until 20 ms after the last indication, and then exactly if a busy frame came since the last pause ended, until the next one ends |
| RoutingFlowControl.CountReturnsToZero | xknx/io/routing.py:129-142 | without further busy frames the timer takes boundedly many steps, after which the count is 0 and sending allowed |
| RoutingFlowControl.TimerProgresses | xknx/io/routing.py:129-142 | until then the timer can step once its sleep is over |
| RoutingFlowControl.FlowControl.HandleRoutingBusy | xknx/io/routing.py:96-127 | the frame is counted, taken or discarded by remaining time, and restarts the timer when taken |
| RoutingFlowControl.FlowControl.ResumeSending | xknx/io/routing.py:129-136 | the pause with its random extension, and the slow duration |
| RoutingFlowControl.FlowControl.EndPause | xknx/io/routing.py:136-139 | ready, no wait start, and the blocked sender woken |
| RoutingFlowControl.FlowControl.DecrementCount | xknx/io/routing.py:140-142 | one less, and the next sleep while any are left |
| RoutingFlowControl.FlowControl.EnterThrottle | xknx/io/routing.py:82-94 | sleeps up to 20 ms after the last indication, then awaits readiness |
| ManagementConnection.AcceptedInSequence | xknx/management/management.py:274-305 | the k-th accepted response carries k mod 16, and equal numbers are at least 16 responses apart |
| ManagementConnection.SendsInSequence | xknx/management/management.py:219-225 | the k-th send uses k mod 16 in all its transmissions, in order, and returns only when acknowledged |
| ManagementConnection.AtMostOneRepeat | xknx/management/management.py:307-346 | a send is transmitted at most twice, with the same number |
| ManagementConnection.AcknowledgedMeans | xknx/management/management.py:285-291 | a send is acknowledged exactly by a TAck with its number while its future waits |
| ManagementConnection.AcksEchoNumbers | xknx/management/management.py:50-62 | on every run the TAcks sent are those of the numbered data that came, in order, repeats included, with the same numbers |
| ManagementConnection.ReturnsIff | xknx/management/management.py:347-360 | on every run a send returns exactly when a TAck with its number is handled; anything else leaves the caller idle |
| ManagementConnection.AnswerIsAccepted | xknx/management/management.py:362-379 | on every run the response that a request returns is the last one accepted |
| ManagementConnection.AnswerStays | xknx/management/management.py:274-305 | a future takes at most one response and keeps it until the caller makes a new one, whatever comes in between |
| ManagementConnection.RequestSends | xknx/management/management.py:307-328 | on every run a request sends its telegram with the next number, at once or when the sleep of the rate limit is over, unless the connection was lost meanwhile |
| ManagementConnection.RequestIsBounded | xknx/management/management.py:307-394 | every request ends, by result or exception, within nine steps of its own |
| ManagementConnection.RequestProgresses | xknx/management/management.py:307-394 | until then it can take a step, by a timeout at the latest |
| ManagementConnection.ConnectionEndsIff | xknx/management/management.py:246-284 | on every run: lost exactly after disconnect() or a TDisconnect, being closed between the halves of disconnect(), and removed exactly by the second half or the refused call |
| ManagementConnection.UnnumberedAcceptedIff | xknx/management/management.py:292-305 | data without a number is accepted as response exactly when number 0 is expected |
| ManagementConnection.SecondAckRaisesIff | xknx/management/management.py:285-291 | after every run an ack that is dispatched raises InvalidStateError exactly when the waiter of the current try has been used up by an ack, a timeout or the own disconnect and the caller has not gone on |
| ManagementConnection.SecondAckRaises | xknx/management/management.py:285-291 | a run with two acks whose second one raises |
| ManagementConnection.DisconnectRaisesIff | xknx/management/management.py:274-284 | after every run a TDisconnect that is dispatched raises InvalidStateError exactly when a telegram awaits its ack and the response waiter is done; the connection is lost either way, and data never raises |
| ManagementConnection.DisconnectRaises | xknx/management/management.py:274-284 | the run with a response that overtakes its ack and then a TDisconnect |
| ManagementConnection.TransmitsWhenDisconnectedIff | xknx/management/management.py:307-346 | on every run, once disconnected, a step transmits exactly when it is the repeat of a first try that timed out |
| ManagementConnection.AtMostTheRepeat | xknx/management/management.py:307-346 | whatever follows, at most that one repeat with the same number is transmitted, and the connection stays lost |
| ManagementConnection.QuietAfterDisconnectIff | xknx/management/management.py:274-346 | in every reachable state without a connection nothing is ever sent again exactly when no first try is open |
| ManagementConnection.RepeatsAfterDisconnect | xknx/management/management.py:274-284 | the run that repeats a telegram after the peer disconnected |
| ManagementConnection.P2PConnection.Connect | xknx/management/management.py:87-109 | registered and connected once the TConnect is confirmed, otherwise the response waiter is cancelled |
| ManagementConnection.P2PConnection.BeginDisconnect | xknx/management/management.py:246-252 | a lost connection is removed and the call raises; otherwise it is lost from now on |
| ManagementConnection.P2PConnection.EndDisconnect | xknx/management/management.py:253-272 | both waiters are cancelled and the connection is removed, whether or not the TDisconnect was sent |
| ManagementConnection.P2PConnection.BeginRequest | xknx/management/management.py:381-394 | refuses without a connection, sleeps for the rate limit or sends |
| ManagementConnection.P2PConnection.ProcessIncoming | xknx/management/management.py:274-305 | new futures, expected number and connected flag, or the InvalidStateError |
| ManagementConnection.P2PConnection.ManagementProcess | xknx/management/management.py:50-62 | every numbered data telegram is acknowledged with its own number before it is processed, with the state and outcome of the processing |
| ManagementConnection.P2PConnection.SendData | xknx/management/management.py:307-328 | refuses without a connection, also one lost during the sleep of the rate limit; otherwise a fresh waiter and the next number |
| ManagementConnection.P2PConnection.AfterAckTimeout | xknx/management/management.py:329-346 | one repeat with the same number, then the timeout is raised |
| ManagementConnection.P2PConnection.AfterAck | xknx/management/management.py:347-360 | goes on only with a TAck of the same number |
| ManagementConnection.P2PConnection.AfterReceive | xknx/management/management.py:362-379 | a new future in every case, and the response if there is one |
| Dpt9.Serialize | xknx/dpt/dpt_9.py:50-81 | the loop computes the specified payload |
| Dpt9.EncodeRepresentable | xknx/dpt/dpt_9.py:66-71 | the loop needs at most 15 halvings exactly for values in the base range, and then exponent and mantissa fit |
| Dpt9.DecodedIsClose | xknx/dpt/dpt_9.py:31-81 | the exponent e is the least with which 100 v / 2^e fits, and the decoded value differs by at most 2^(e-1) hundredths |
| Dpt9.EveryPayloadDecodes | xknx/dpt/dpt_9.py:31-47 | the base class decodes exactly the payloads of two octets |
| Dpt9.PayloadRestoredIff | xknx/dpt/dpt_9.py:31-81 | two octets come back exactly when normalised: exponent 0 or mantissa outside -1024..1023 |
| Dpt9.OnBusIsMonotone | xknx/dpt/dpt_9.py:31-81 | encoding and decoding keeps order, across changes of the exponent too |
| Dpt9.OnBusIsIdempotent | xknx/dpt/dpt_9.py:31-81 | a second round trip changes no value |
| Dpt9.SecondEncodingDiffersIff | xknx/dpt/dpt_9.py:66-79 | a second encoding gives other octets exactly when the rounding reached -1024 with an exponent |
| Dpt9.ClosedIff | xknx/dpt/dpt_9.py:83-86 | a class decodes everything it encodes exactly when neither limit is rounded outward |
| Dpt9.UpperLimitRefusesIff | xknx/dpt/dpt_9.py:98-99 | with upper limit 670760 a payload is decodable exactly for values up to 670597.12 |
| Dpt9.BothLimitsRefuseIff | xknx/dpt/dpt_9.py:111-112 | with limits -670760 and 670760 exactly between -670597.12 and 670597.12 |
| Dpt9.LowerLimitsKept | xknx/dpt/dpt_9.py:98-99 | the lower limits 0, -273 and -459.6 are not rounded outward |
| Scaling.RestoresValuesIff | xknx/remote_value/remote_value_scaling.py:64-72 | every whole number of a range survives encoding and decoding exactly when the range is at most 255 wide |
| Scaling.RestoresOctetsIff | xknx/remote_value/remote_value_scaling.py:64-72 | every octet survives decoding and encoding exactly when the range is at least 255 wide |
| Scaling.Monotone | xknx/remote_value/remote_value_scaling.py:64-72 | both maps keep order, or invert it with an inverted range |
| Scaling.StaysInRange | xknx/remote_value/remote_value_scaling.py:64-72 | numbers of the range give octets and octets give numbers of the range |
| Scaling.RefusesIff | xknx/dpt/dpt_5.py:60-90 | exactly the numbers beyond the limits are refused, and every octet decodes |
| Scaling.PercentRestores | xknx/dpt/dpt_5.py:75-107 | DPTScaling restores every whole percentage but not every octet |
| Scaling.AngleRestores | xknx/dpt/dpt_5.py:110-124 | DPTAngle restores every octet but not every whole angle |
| KnxIpFrame.KnxIpHeader.FromKnx | xknx/knxip/header.py:24-41 | which errors are raised, and that the total length is stored before version and service type are checked |
| KnxIpFrame.KnxIpHeader.SetLength | xknx/knxip/header.py:43-47 | header and body length together |
| KnxIpFrame.BodyRoundTrip | xknx/knxip/knxip.py:65-154 | every body of the 29 classes that fits its fields parses back to itself |
| CoreBodies.RoundTrip | xknx/knxip/knxip.py:83-106 | the same for the core services, with endpoints, connect information and lists |
| CoreBodies.ConnectResponseRoundTripIff | xknx/knxip/connect_response.py:42-64 | a connect response comes back exactly when its status is no error |
| CoreBodies.ErrorIsReadAlone | xknx/knxip/connect_response.py:42-64 | of a connect response with an error nothing else is read |
| CoreBodies.CriRoundTrip | xknx/knxip/connect_request.py:99-137 | basic and extended connect request information comes back |
| CoreBodies.CrdRoundTrip | xknx/knxip/connect_response.py:103-130 | connect response data comes back |
| TunnellingBodies.RoundTripIff | xknx/knxip/tunnelling_feature.py:56-83 | device management, tunnelling and feature bodies come back exactly when feature data is of even length |
| RoutingBodies.RoundTrip | xknx/knxip/routing_lost_message.py:37-49 | routing bodies come back |
| SecureBodies.RoundTrip | xknx/knxip/session_response.py:41-59 | secure wrappers, session bodies and timer notifies come back |
| CoreBodies.HpaiAcceptedIff | xknx/knxip/hpai.py:42-54 | an endpoint is read exactly where the octets of a valid one stand |
| CoreBodies.ParsedIsSound | xknx/knxip/knxip.py:83-106 | whatever core body is parsed has valid endpoints, a known status, and valid information where it was read |
| TunnellingBodies.AcceptedIff | xknx/knxip/tunnelling_feature.py:56-83 | which octets each of these bodies is parsed from: a header of length 4, a known status, a feature from 1 to 8, a return code of 0 with data or from 0xF1 |
| TunnellingBodies.ParsedReserialises | xknx/knxip/tunnelling_feature.py:85-100 | whatever is parsed gives the octets it was read from, with the reserved ones zero and feature data padded to even length |
| RoutingBodies.ParsedSerialises | xknx/knxip/routing_lost_message.py:37-49 | whatever routing body is parsed serialises to the same octets |
| SecureBodies.ParsedSerialises | xknx/knxip/session_response.py:41-59 | so does whatever secure body is parsed, but for two reserved octets |
| KnxIpFrame.FrameRoundTrip | xknx/knxip/knxip.py:56-154 | a frame parses back to itself and leaves what follows it untouched |
| KnxIpFrame.ProperPrefixIsIncomplete | xknx/knxip/knxip.py:65-80 | every proper beginning of a frame is reported as incomplete |
| KnxIpFrame.ParsedFrameIsStable | xknx/knxip/knxip.py:65-150 | octets that arrive later do not change a complete frame |
| KnxIpFrame.FailureIsStable | xknx/knxip/knxip.py:65-150 | a failure other than an incomplete frame is final |
| KnxIpFrame.RestShrinksIff | xknx/knxip/knxip.py:65-150 | the rest is strictly shorter exactly when the length octets are not both zero |
| KnxIpFrame.KnownServices | xknx/knxip/knxip_enum.py:6-48 | the service types that are known, all codes of classes among them, and the five that no class reads |
| KnxIpFrame.FrameOctets | xknx/knxip/knxip.py:56-154 | every frame octet by octet: the header with the code of its class and the total length, and the layout of each of the 29 classes |
| TcpStream.TcpTransport.DataReceived | xknx/io/transport/tcp_transport.py:84-115 | frames handled, octets kept and the exception raised for one chunk, on a stack of any depth |
| TcpStream.ChunkingIsIrrelevant | xknx/io/transport/tcp_transport.py:84-115 | however data is cut into chunks, the frames and the kept tail are those of the whole |
| TcpStream.StreamArrives | xknx/knxip/knxip.py:65-154 | serialised frames cut at any positions arrive as exactly those frames in order, and an unfinished frame stays in the buffer octet for octet, exactly when the stack has room for the frames each chunk completes |
| TcpStream.RefusedFrameLosesTheRest | xknx/io/transport/tcp_transport.py:99-115 | for all frames, refused octets and octets behind them: the frames are handed on, the exception leaves the callback, and the rest is lost |
| TcpStream.RaisesNothingIff | xknx/io/transport/tcp_transport.py:84-115 | nothing is raised exactly when the data is whole frames and at most the beginning of one and the stack has room; RecursionError exactly when it has not |
| TcpStream.CleanIffDrained | xknx/io/transport/tcp_transport.py:99-115 | the same for an unlimited stack, with the number of nested calls |
| TcpStream.FeedWithinIff | xknx/io/transport/tcp_transport.py:84-115 | a limited stack makes no difference exactly when it has room for every chunk |
| TcpStream.UnsupportedServiceIsRefused | xknx/knxip/knxip.py:139-150 | a frame of a service without a body class is refused |
| TcpStream.EndlessDescription | xknx/knxip/description_response.py:31-39 | a whole description response whose list never ends keeps the callback from returning |
| TcpStream.ZeroLengthHeaderRepeats | xknx/io/transport/tcp_transport.py:99-115 | every frame that parses with a total length of zero is handled once on each level, until RecursionError, with nothing kept |
| TcpStream.ZeroLengthRoutingIndication | xknx/io/transport/tcp_transport.py:99-115 | the octets 06 10 05 30 00 00 are such a frame |
| ParseLoops.ParseLoop | xknx/knxip/search_request_extended.py:35-43 | the loop computes the parsed list, the error, or that it repeats for ever |
| ParseLoops.LoopOutcome | xknx/knxip/search_response.py:32-40 | where the outcome is a list or an error the loop gets there in at most one pass per octet; otherwise it still runs after any number of passes |
| ParseLoops.TerminatesIffAlwaysAdvances | xknx/knxip/search_response.py:32-40 | such a loop ends exactly when every item it reaches advances |
| ParseLoops.ErrorBehind | xknx/knxip/search_response.py:32-40 | an error behind items that parse is the error of the whole list |
| DescriptionInformationBlocks.DibRoundTrip | xknx/knxip/dib.py:50-66 | a block parses back to itself whatever follows; odd generic data comes back padded |
| DescriptionInformationBlocks.DibRoundTripIff | xknx/knxip/dib.py:82-114 | a valid block is restored exactly when it is not generic data of odd length |
| DescriptionInformationBlocks.SlotsRoundTrip | xknx/knxip/dib.py:342-378 | tunnelling slots with distinct addresses come back in order |
| DescriptionInformationBlocks.FamiliesRoundTrip | xknx/knxip/dib.py:261-290 | service families come back in order |
| DescriptionInformationBlocks.FamiliesFromKnx | xknx/knxip/dib.py:265-281 | the loop computes the parsed families or the ValueError |
| DescriptionInformationBlocks.SlotsFromKnx | xknx/knxip/dib.py:346-367 | the loop computes the dictionary of slots |
| DescriptionInformationBlocks.DibListRoundTrip | xknx/knxip/search_response.py:28-53 | a list of restorable blocks parses back to itself, and the computed length is the byte length |
| DescriptionInformationBlocks.DibLoopTerminatesIff | xknx/knxip/description_response.py:31-39 | the list loop ends exactly when every length octet it reads is non-zero |
| DescriptionInformationBlocks.GenericIff | xknx/knxip/dib.py:50-66 | a block is generic exactly for the known codes without a class; an unknown code raises ValueError |
| DescriptionInformationBlocks.AcceptedIff | xknx/knxip/dib.py:50-66 | which octets are parsed as a block: the lengths, the type codes, the media of a device, the families |
| DescriptionInformationBlocks.ParsedSlots | xknx/knxip/dib.py:342-367 | the slots are the dictionary of the records: addresses in order of their first record, each with the status of its last one |
| DescriptionInformationBlocks.SlotsReserialise | xknx/knxip/dib.py:354-378 | reading slots keeps their addresses and the three lowest status bits, and nothing else |
| DescriptionInformationBlocks.ParsedIsRestorableIff | xknx/knxip/dib.py:82-114 | whatever is parsed is restored from its own octets, except generic data of odd length; with length octet 255 it cannot be serialised |
| DescriptionInformationBlocks.UnknownTypeRefusesTheList | xknx/knxip/dib.py:50-66 | one block of an unknown code behind any valid ones makes the whole list raise ValueError |
| DescriptionInformationBlocks.ZeroLengthNeverEnds | xknx/knxip/search_response.py:32-40 | a block that parses with length octet 0 behind any valid ones keeps the loop busy for ever |
| DescriptionInformationBlocks.ZeroLengthManufacturerData | xknx/knxip/search_response.py:32-40 | the octets 00 FE are such a block |
| SearchRequestParameters.MakeSrpIff | xknx/knxip/srp.py:29-58 | which arguments the constructor takes, and the size it gives them |
| SearchRequestParameters.SrpRoundTrip | xknx/knxip/srp.py:29-98 | a parameter parses back to itself whatever follows |
| SearchRequestParameters.SrpListRoundTrip | xknx/knxip/search_request_extended.py:31-49 | a list of valid parameters parses back to itself, and the computed length is the byte length |
| SearchRequestParameters.SrpLoopTerminates | xknx/knxip/search_request_extended.py:35-43 | the loop ends on every input: each pass raises or advances by at least two octets |
| SearchRequestParameters.ConstructedRoundTripIff | xknx/knxip/srp.py:29-98 | a constructed parameter comes back from its octets exactly when a selection by programming mode has no data and a DIB request at most 252 octets |
| SearchRequestParameters.AdvanceIsAnnouncedIff | xknx/knxip/search_request_extended.py:35-43 | for every input that parses the loop advances by the announced length exactly when the two header octets say so: no data for a selection by programming mode, an even length for a DIB request |
| SearchRequestParameters.RestIsReadFromAdvance | xknx/knxip/search_request_extended.py:35-43 | the other parameters are read from the advance on, be that the announced end or not |
| SearchRequestParameters.SurplusDataIsReadAgain | xknx/knxip/search_request_extended.py:35-43 | surplus octets of a selection by programming mode are its data and are read again as the next parameters, whatever they are |
| SearchRequestParameters.SurplusDataIsReadAsNextParameter | xknx/knxip/search_request_extended.py:35-43 | the octets 04 01 02 01 give two parameters |
| TransportControl.ResolvedSerialises | xknx/telegram/tpci.py:32-98 | a resolved octet serialises to itself but for APCI bits and 0x82, 0x83 |
| TransportControl.ResolvesIff | xknx/telegram/tpci.py:32-98 | a TPCI comes back from its octet, with any APCI bits, exactly when its kind fits the destination |
| TransportControl.AcceptedIff | xknx/telegram/tpci.py:56-98 | an octet resolves exactly when it is, in canonical form, that of a TPCI that fits |
| TransportControl.SerialisedResolves | xknx/telegram/tpci.py:56-98 | the serialised octet with any APCI bits resolves to the same |
| Cemi.ReserialisedLData | xknx/cemi/cemi_frame.py:186-319 | serialising a parsed L_Data changes at most the Frame Type bit and the octets 0x82, 0x83; an NPDU of 255 octets is refused |
| Cemi.FrameTypeOfNormalised | xknx/cemi/cemi_frame.py:205-216 | of the flags only the Frame Type bit may differ, and it is set exactly for NPDUs of at most 15 octets |
| Cemi.SecondPassIsIdentity | xknx/cemi/cemi_frame.py:186-319 | a second pass is the identity |
| Cemi.ReserialisedFrame | xknx/cemi/cemi_frame.py:656-704 | the same for whole frames with additional information |
| Cemi.LDataRoundTripIff | xknx/cemi/cemi_frame.py:186-319 | an L_Data that serialises comes back, but for its Frame Type bit, exactly when it is of the standard format, its TPCI and the type in its flags fit the destination, and its APDU is accepted |
| Cemi.ParsedCarries | xknx/cemi/cemi_frame.py:226-319 | only such L_Data is ever parsed |
| Cemi.RefusedIff | xknx/cemi/cemi_frame.py:226-319 | which octets are refused as unsupported, and that all others refused are no cEMI |
| Cemi.LinkFrameRoundTripIff | xknx/cemi/cemi_frame.py:656-704 | a frame of L_Data comes back exactly when its L_Data does |
| Cemi.PropFrameRoundTripIff | xknx/cemi/cemi_frame.py:656-704 | a frame of an M_Prop message comes back exactly with its own code, no additional information and a restorable message |
| Cemi.OtherCodesAreRefused | xknx/cemi/cemi_frame.py:656-704 | every message code but seven is refused as unsupported |
| Cemi.FrameLengthIsExact | xknx/cemi/cemi_frame.py:640-654 | whatever serialises has the calculated length |
| Cemi.PropInfoRoundTripIff | xknx/cemi/cemi_frame.py:358-392 | a property that serialises comes back exactly when its start index fits 12 bits |
| Cemi.PropInfoReserialises | xknx/cemi/cemi_frame.py:358-392 | six octets of a known object type always come back |
| Cemi.PropReserialises | xknx/cemi/cemi_frame.py:425-591 | whatever M_Prop message is parsed serialises to the same octets, but for an error code of 0 |
| Cemi.PropRoundTripIff | xknx/cemi/cemi_frame.py:547-591 | M_Prop messages round-trip exactly when restorable: write responses with an error code exactly for zero elements, and not the code 0x00 |
| Cemi.CemiLData.Serialize | xknx/cemi/cemi_frame.py:186-224 | writing the TPCI into the payload's buffer gives the specified octets |
| Cemi.WithHopsIff | xknx/cemi/cemi_frame.py:119-130 | the hop bits are set and no others exactly for counts below 8 |
| Cemi.EightHopsAddressAGroup | xknx/cemi/cemi_frame.py:123-130 | a count of 8 leaves the hop bits clear and sets the group address flag |
| Cemi.CemiLData.SetHops | xknx/cemi/cemi_frame.py:123-130 | the setter computes that combination |
| TravelCalculator.PositionMoves | xknx/devices/travelcalculator.py:137-166 | the position stays between last known position and target, moves monotonically, and is within one unit of the exact linear one |
| TravelCalculator.CurrentIsTruncated | xknx/devices/travelcalculator.py:137-166 | it is the exact linear position rounded towards zero |
| TravelCalculator.ReachedIff | xknx/devices/travelcalculator.py:137-174 | for all whole positions the target is reached exactly with the full travel time when travelling away from zero, and otherwise after the time for one unit less |
| TravelCalculator.DividesByZeroIff | xknx/devices/travelcalculator.py:154-166 | division by zero exactly for a stopped, known, unconfirmed position asked not after its timestamp |
| TravelCalculator.StopDoesNotJump | xknx/devices/travelcalculator.py:69-77 | stopping keeps the position at every later time |
| TravelCalculator.StartDoesNotJump | xknx/devices/travelcalculator.py:79-93 | starting keeps a known position; an unknown one becomes the target |
| TravelCalculator.Calculation.UpdatePosition | xknx/devices/travelcalculator.py:62-67 | position, timestamp, and confirmed when it is the target |
| TravelCalculator.Calculation.SetPosition | xknx/devices/travelcalculator.py:57-60 | position and target, confirmed |
| TravelCalculator.Calculation.StopTravel | xknx/devices/travelcalculator.py:69-77 | stopped at the current position, or the exception and no change |
| TravelCalculator.Calculation.StartTravel | xknx/devices/travelcalculator.py:79-93 | direction and target from the current position |
| Cover.EveryRunIsConsistent | xknx/devices/cover.py:252-274 | on every run of Cover's calls nothing raises; confirmed, or stopped with a known position, implies last known equals target |
| Cover.PredictionAfterEveryRun | xknx/devices/cover.py:252-274 | after every run the predicted position is monotone between last known position and target |
| Cover.OnlyReportsJump | xknx/devices/cover.py:301-312 | no call but a position report makes a known position jump |
| Cover.NeverRaisesIffAdvancing | xknx/devices/cover.py:268-274 | no run raises exactly when the clock advances between calls |
| Cover.DividesByZero | xknx/devices/cover.py:301-312 | the run with a report, a stop and a report in one instant that divides by zero |
| Cover.CommandsSent | xknx/devices/cover.py:170-250 | after every run, what each call sends: up for a position below the current one, down for one above, the two ends when it is unknown, and what stops the cover by its direction or tilt |
| Cover.HeadsWhereSent | xknx/devices/cover.py:221-258 | after every run, what sends up or down makes the prediction go to the position asked for, in the direction it lies |
| Cover.PredictionFollows | xknx/devices/cover.py:292-361 | after every run, where a report, a telegram or a stop makes the prediction go: to the target reported, to the end unless under way there, or nowhere |
| Cover.UpdaterRuns | xknx/devices/cover.py:252-274 | after every run the periodic updater runs while the cover is predicted to travel |
| Cover.UpdaterIff | xknx/devices/cover.py:252-312 | after every run, exactly which calls start the updater and which end it |
| Cover.RunFollows | xknx/devices/cover.py:276-361 | on every run the auto stopper is armed from its set_position until it fires, a stop comes, or an up or down telegram other than its own; and the tilt is the last since a move or stop |
| Cover.AutoStopMeetsPrediction | xknx/devices/cover.py:221-250 | the auto stopper is due when the target is predicted to be reached, and not before when travelling down to a positive position |
| Cover.CoverDevice.StartPositionUpdate | xknx/devices/cover.py:252-258 | starts the calculator, and the periodic updater when travelling |
| Cover.CoverDevice.StopPositionUpdate | xknx/devices/cover.py:269-274 | stops the calculator unless the position is reached, and the periodic updater |
| Cover.CoverDevice.SetPosition | xknx/devices/cover.py:221-250 | the commands sent and the updates started, with unknown positions refused except the ends |
| Cover.CoverDevice.StartAutoStopper | xknx/devices/cover.py:276-290 | due after the travel time, except for the two ends |
| Cover.CoverDevice.CurrentPositionFromRv | xknx/devices/cover.py:301-312 | update while travelling, set otherwise |
| Cover.CoverDevice.MoveToEndPosition | xknx/devices/cover.py:170-190 | up or down, or the target position |
| Cover.CoverDevice.StopMovement | xknx/devices/cover.py:200-219 | the stop command, or the step command by the direction of travel or tilt, then the update stopped |
| Cover.CoverDevice.ProcessUpDown | xknx/devices/cover.py:334-356 | keeps its own auto stopper once, cancels it otherwise, and starts unless already moving that way |
| Cover.CoverDevice.ProcessStop | xknx/devices/cover.py:357-361 | cancels the auto stopper and stops while travelling |

## Left out

* The ciphers, hashes, key derivation and random numbers: foreign code, arbitrary functions here; no cryptographic strength is claimed.
* Sockets, DNS, gateway scanning, threads, logging, callbacks, `__repr__`: plumbing and presentation.
* APCI services, address strings and Data Secure: not part of this model; an APDU is its octets.
* IEEE rounding of float operations: reals; a position or scaled value that IEEE arithmetic rounds across an integer is not covered.
* Concurrent callers of routing `throttle()` and of one management connection, cancelled caller tasks: one caller is assumed.
* The server's own side of a connect, a heartbeat and a disconnect: their answers are events; only its receiving of requests is modelled.
* Requests sent with an old channel after a transport has been opened anew: in `TunnelWire` no server receives them.
- TelegramQueue.TelegramQueue.StartQueue: for a queue whose loops have ended; start() in any state is `TelegramQueueStarts.RateLimiters.StartQueue`, for the limiter loops alone.
- ManagementConnection.P2PConnection.AfterReceive: request() checks the payload type of the returned response after it.
- SecureTunnellingSession.SecureSession.SessionAnswered: the key exchange is a parameter and is taken to succeed.
- SecureTunnellingSession.ForwardedIsSubsequence: the keepalive task and session status frames are not modelled.
* The angle of a cover's tilt: only the direction of a tilt under way, which decides the step command, is kept; lock and angle telegrams.
* `_process_all_telegrams`, telegram callbacks and their filters.
* DPTs other than 9 and 5.001/5.003; `RemoteValueScaling` group addresses and read requests.
