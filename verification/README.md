# DeskHop+ core, verified

A Dafny model of the freestanding protocol stack of DeskHop+ (`core/`) and of the
hardware-free client proxy (`firmware/rp2040/src/clientlink.c`). Boards sit in a line, each a
keyboard and mouse to one machine; one of them, elected, decides which machine the user's
input goes to. The stack does no I/O and reads no clock, so every module is a step function
and whole runs can be quantified over.

Each part comes in two forms. What the C code does in place is a class whose methods keep its
loops and its order of updates and are proved equal to a function on values; what the project
promises is proved about those functions, over every run.

| files | what they are about |
|---|---|
| `Types`, `Bytes` | machine integers, wrapping time, little-endian fields |
| `Crc16`, `Frame`, `Framing`, `Framer` | the check, the frame body, octet stuffing (section 4.2 of RFC 1662), the streaming codec |
| `Link`, `Line`, `Delivery` | one board's store-and-forward and replay window; a line of N boards with FIFO wires; what reaches whom when nothing is lost |
| `Adler`, `Stream`, `Data`, `Untrusted` | the checksum (section 2.2 of RFC 1950), one go-back-N slot, the stream table, one stream against a peer that sends anything |
| `Transfer`, `Progress`, `Recovery` | a transfer end to end over lossy channels, why it finishes when nothing is lost, and why a timeout mends what was |
| `Uhrp`, `Handover`, `Contention`, `Election` | the role election, one board's whole runs, how a chain of N boards gets a holder of the role, and how it keeps it |
| `Hid`, `Router`, `Switch`, `Ledger`, `Anchors` | the sent-state tracker, the router, "no key is ever left held", and when a board serves a machine it knows |
| `Arrival`, `Presence`, `Steering` | what reaches the machines end to end, how the boards come to know each other, and where the user ends up |
| `Pointer` | crossing between screens by gesture |
| `Pairing`, `Agreement`, `Binding` | trust establishment; two boards under any loss and reordering, the third-party rule, and a network that injects anything |
| `ClientFlow`, `ClientLink` | the ring and the 64-byte reports to the client, and the gate from it |

`dafny verify dfyconfig.toml` checks everything.

What is taken from outside the code: the keyed hash, the key derivation and the
Diffie-Hellman function are arbitrary function values, the last one with its symmetry as a
hypothesis; random secrets and nonces, the clock, the endpoint's readiness and the
application's decisions are parameters of the steps; hooks and transmitted frames are logs.

Where the code does less than its documentation says, the model follows the code and the
exact condition is proved:

* `core/include/dhp/uhrp.h` says that a board promoted by timeout always broadcasts a release.
  The code does so if and only if the entry point that notices the loss is `dhp_uhrp_tick`, or
  an earlier loss, seen by a tick, has not been answered since and is not answered by that
  entry point. A hello of any third board arriving after the hold time and before the tick
  drops the expired entry first; with no earlier loss unanswered, the promotion that fills the
  vacancy, then or later, releases nothing (`Handover.FailoverReleasesIff`, `UncleanIffLost`,
  `HelloHidesTheLoss`, `ExampleMissesRelease`).
* The replay window of `core/src/link.c` is meant to stop replays only. Without any loss it also
  refuses genuine frames, if and only if a source sends about a whole turn of its 16-bit counter
  that does not come by a board (`Delivery.NothingRefusedIffSpaced`, `LullDropsABroadcast`).
* `core/include/dhp/data.h` promises every chunk in order exactly once for any content that
  `max_inbound` admits. The chunk count is 16 bits wide, so this holds if and only if the
  content is at most 65535 * 60 bytes, less than the default limit (`Stream.ChunksCover`,
  `Transfer.SuccessMeansDelivered`, `OverflowingContentNeverMoves`).
* The comment in `dhp_data_rx` that REJECT and ABORT go either way does not say which stream
  wins: the inbound one does (`Data.TargetIsolation`).
* Pairing clears the secret on abort but leaves a requested confirmation pending, and the
  firmware drains after ticking; the confirmation is then computed from zeros and the genuine
  peer reports a mismatch. A peer that is already DONE does so too, since a confirmation is
  judged in any state: its finished pairing is revoked and its key wiped. Keys and strings agree
  in every run all the same (`Agreement.PairedBoardsAgree`, `BadConfirmIffSpoiled`,
  `LateConfirmIsRefusedIff`, `LateDrainBreaksPairing`, `LateDrainRevokesPairing`).
* The tracker shares this board's own slot with every address it does not know, so the
  ledger results are about runs whose input goes to machines in the table. Otherwise a key can
  stay down for good (`Anchors.UnknownFocusConfusesOwnSlot`, `UnknownFocusLeavesKeyStuck`). Any
  board whose promotions find somebody to serve is safe over all its runs, in particular one with
  a machine of its own; a coordinator alone is not (`Anchors.ConsiderateRunsAreAnchored`,
  `OwnMachineIsAlwaysAnchored`, `PromotionAnchorsIff`, `LonelyCoordinatorIsUnanchored`).
* A planned handover is said to wait for the keys to come up. The election learns of them only
  when input is sent on, so after switching away with a key down it waits for its deadline
  although nothing is held, and then broadcasts a release (`Ledger.FlagExactIff`,
  `SwitchLeavesFlagUp`).
* The FOCUS arm of `dhp_router_rx` is described as a second path to letting go. It can never
  find anything to let go of (`Ledger.FocusArmReleasesNothing`).
* A shove at the last screen is said to do nothing. It re-seats the pointer at the far side
  (`Steering.ShoveAtTheEndIsRemembered`).
* The CRC is computed high bit first and stored low byte first, so of all damage to two adjacent
  bytes of a body exactly one pattern passes it (`Frame.BurstAnywhere`).
* `core/include/dhp/data.h` describes go-back-N as recovering from loss. A timeout does mend any loss
  of chunks, acknowledgements and offers, but ACCEPT and DONE are sent once. A comment in `rx_offer`
  says that a repeated offer has the answer sent again; what it sends is an ACK, which an offering
  sender ignores, so it stalls while the receiver holds the stream. A sender whose DONE is lost
  reports a timeout for a content that was delivered whole (`Recovery.RecoverableIff`, `LostVerdictIsFinal`,
  `DeliveredButNeverTold`, `LostConsentStalls`).
* A REJECT or ABORT is reported with the code it carries, and code zero is that of success. So an
  application told OK has the whole content unless its peer has sent such a refusal
  (`Untrusted.SuccessMeansWhole`, `RefusalIsHandedOn`).

## Model

| member | source | states |
|---|---|---|
| `Types.TimeAfterIsTrueOrder` | core/include/dhp/types.h:26-35 | the wrapping comparison of two timestamps is the true order of the instants, and their difference the true difference, as long as they are less than half the counter apart |
| `Adler.Update` | core/src/data.c:83-99 | the loop with one conditional subtraction per addition computes Adler-32 as section 2.2 of RFC 1950 defines it with full sums and a final modulus |
| `Adler.Congruence` | core/src/data.c:83-99 | only the residues of the start values matter to both halves of the checksum |
| `Adler.Concatenation` | core/src/data.c:70-79 | both halves over a concatenation are the second part continued from the first |
| `Adler.ChunkwiseIsWhole` | core/src/data.c:445-447 | folding a content in chunk by chunk gives the checksum of the whole content |
| `Adler.CheckValue` | core/src/data.c:83-99 | the checksum word of "abc" |
| `Adler.LowCheckValue` | core/src/data.c:83-99 | the low half over the shortest run of all-ones octets that wraps it, which fixes the modulus |
| `Stream.ChunksCover` | core/src/data.c:149-152 | the 16-bit chunk count covers the content if and only if the content is at most 65535 * 60 bytes, which the default inbound limit of 8 MB exceeds |
| `Stream.PumpedIsSound` | core/src/data.c:273-297 | pumping keeps a sending slot readable and outbound |
| `Stream.Received` | core/src/data.c:477-576 | every operation but an offer leaves a sound slot of the same direction, or frees it |
| `Stream.Ticked` | core/src/data.c:580-644 | a tick leaves a sound slot of the same direction or frees it, and never by itself reports success |
| `Transfer.DeliveryIsPrefix` | core/src/data.c:273-297 | in every run of one transfer over FIFO channels that may lose anything: acked <= receiver position <= send position = min(chunks, acked + window) once sending, and the application has been handed exactly the source prefix of that many chunks, each once, in order, at its offset |
| `Transfer.SuccessMeansDelivered` | core/src/data.c:565-567 | a sender told OK was told by a verdict over a matching checksum, and the receiver has delivered the whole content if and only if the content fits the chunk counter |
| `Transfer.OverflowingContentNeverMoves` | core/src/data.c:149-152 | the input past the counter: a content of 65536 chunks is never delivered at all and never reported sent |
| `Transfer.GenuineContentPasses` | core/src/data.c:455-467 | for a countable content every DONE on the wire says OK and the whole content has been delivered: genuine chunks are never ruled corrupt, whatever was lost or repeated |
| `Transfer.RewindsAreBounded` | core/src/data.c:535-556 | with T chunks and K timeouts the retransmission counter never exceeds T + 2K, and no acknowledgement in flight equals the 0xFFFF sentinel |
| `Transfer.PumpFillsWindow` | core/src/data.c:273-297 | the pump leaves the send position at min(chunks, acked + window) and emits exactly the chunks in between, once each, with the right bytes |
| `Transfer.NextKeeps` | core/src/data.c:477-644 | the transfer invariant is kept by every delivery, loss, tick and application call at either end |
| `Transfer.TakenPosition` | core/src/data.c:437-474 | taking the expected chunk advances the receiver by exactly one chunk of the content and answers with a true ACK, the verdict, or nothing |
| `Transfer.AckKeeps` | core/src/data.c:532-563 | an in-order ACK, including one that rewinds, keeps the window and the retransmission bound |
| `Transfer.TimeoutKeeps` | core/src/data.c:630-639 | a timeout rewind to the acknowledged chunk keeps the invariant and costs at most one more rewind |
| `Transfer.LogIsInOrder` | core/src/data.c:449-451 | the delivered chunks each start where the previous one ended |
| `Transfer.ChunkLogIsPrefix` | core/src/data.c:437-451 | the bytes of the first k deliveries are the first k chunks of the content |
| `Progress.TransferSucceeds` | core/src/data.c:477-576 | there is such a schedule for each such content that ends in OK with the whole content delivered |
| `Progress.EverySmoothScheduleSucceeds` | core/src/data.c:477-576 | every countable content that the receiver admits, over any non-zero window: every schedule without losses and expired timers, in whatever order and at whatever times, has told the sender OK and delivered the whole content once it has made a number of deliveries bounded by the chunk count and the window |
| `Progress.SmoothRunCanGoOn` | core/src/data.c:469-474 | until then such a schedule always has something to deliver or to consent to |
| `Progress.DeliveryHelps` | core/src/data.c:477-576 | every single delivery, in whatever order, ends the transfer well or brings it strictly closer to its end |
| `Progress.EnoughDeliveriesSucceed` | core/src/data.c:477-576 | from any stage of a transfer, with repeated offers, consents and stale chunks still around: every schedule without further losses and expired timers that makes more deliveries than there is left to do ends in OK with the whole content delivered |
| `Progress.NeverStalls` | core/src/data.c:469-474 | a half window being no more than a window, a flowing transfer, even one whose acknowledgements were lost, always has something on one of the two wires |
| `Progress.SenderStep` | core/src/data.c:532-563 | an ACK, which also rewinds, leaves enough on the wire to carry the receiver to the new send position, and less to do |
| `Progress.ReceiverStep` | core/src/data.c:412-475 | each chunk heard, taken or stale, keeps the transfer flowing with less to do, and the last one closes it |
| `Recovery.TimeoutResends` | core/src/data.c:630-638 | in every state of a run, a tick past the acknowledgement timeout with a try left appends exactly the chunks from the first unacknowledged one to the end of the window, in order and once each, also while draining, and changes nothing else but timer and counts |
| `Recovery.TimeoutOffersAgain` | core/src/data.c:616-629 | before consent it appends one offer of the same kind, size, checksum and name |
| `Recovery.TickGivesUpOrWaits` | core/src/data.c:588-614 | every other tick: silence for the idle time ends the stream with TIMEOUT, a used-up budget ends it after an ABORT, and an unexpired timer does nothing |
| `Recovery.ReceiverTickIs` | core/src/data.c:588-598 | the receiver's clock only ends a stream that has been silent for the idle time |
| `Recovery.LossesAreRepaired` | core/src/data.c:600-641 | whatever has been lost: with the stream open at the receiver (or the handshake still holding its consent), no refusal under way and a try left, once the timer has run out every schedule that loses nothing more, and finds the receiver silent for 20 ms, ends in OK with the whole content after a bounded number of deliveries |
| `Recovery.LossesCanBeRepaired` | core/src/data.c:600-641 | and there is such a continuation, one tick and then deliveries, from every such state |
| `Recovery.RecoverableIff` | core/src/data.c:412-475 | a sender that is sending, with a try left and no refusal under way, can still be told OK by some continuation if and only if the receiver has the stream, is asked about it or will be, or has its verdict on the way |
| `Recovery.LostVerdictIsFinal` | core/src/data.c:454-467 | once the verdict is lost no continuation whatever tells the sender OK |
| `Recovery.DeliveredButNeverTold` | core/src/data.c:454-467 | for every content there is a run that delivers all of it and then loses the verdict |
| `Recovery.LostConsentStalls` | core/src/data.c:362-370 | once the consent is lost, the sender is not told OK as long as the receiver holds on to the stream: repeated offers draw acknowledgements that an offering sender ignores |
| `Recovery.ConsentCanBeLost` | core/src/data.c:301-312 | it takes the loss of one frame |
| `Recovery.HearingRefills` | core/src/data.c:508-509 | whatever a sender hears, if it goes on, restores its idle time and all its tries |
| `Recovery.ReceiverIsAlive` | core/src/data.c:301-312 | a receiver counts as alive from any chunk and from its application's consent |
| `Recovery.SenderIsToldWhy` | core/src/data.c:524-572 | the sender's application is told exactly the code that a refusal, an abort or a verdict carries |
| `Recovery.DecliningEnds` | core/src/data.c:314-324 | declining ends both sides, the sender told REFUSED |
| `Recovery.ReceiverCancelEnds` | core/src/data.c:326-345 | cancelling at the receiver ends both sides, the sender told CANCELLED |
| `Recovery.SenderCancelEnds` | core/src/data.c:326-345 | cancelling at the sender ends both sides |
| `Recovery.OversizedIsNeverLetIn` | core/src/data.c:398-405 | a content past the receiver's limit: in every run no byte is delivered, no stream opened and no success reported |
| `Recovery.OversizedIsTold` | core/src/data.c:398-405 | and its sender is told TOO_BIG |
| `Recovery.AskedAboutWhatIsOffered` | core/src/data.c:407-411 | the receiver's application is asked about the kind, size and name, cut at 48 octets, that the sender's application offered |
| `Untrusted.IntakeIsFaithful` | core/src/data.c:412-475 | one inbound stream against a peer that sends anything: consent before the first chunk, chunks at their places inside the announced size, one verdict at the end unless declined, nothing after it |
| `Untrusted.SuccessMeansWhole` | core/src/data.c:445-467 | an application told OK has all chunks of the announced size with the announced checksum, unless the peer has sent a refusal with code zero |
| `Untrusted.RefusalIsHandedOn` | core/src/data.c:524-526 | any refusal ends the stream and is reported with the code it carries; so code zero reads as success |
| `Untrusted.SenderIsHonest` | core/src/data.c:501-576 | one outbound stream against a peer that answers anything: nothing but its own offer and its own chunks on the link, chunks only after a consent, one report to the application, OK only on the peer's word |
| `Data.TargetIsolation` | core/src/data.c:493-506 | ACCEPT, ACK and DONE only ever reach an outbound stream and CHUNK an inbound one where there is one; REJECT and ABORT reach an outbound stream if and only if no inbound stream shares its peer and id |
| `Data.Endpoint.constructor` | core/src/data.c:196-218 | an endpoint starts with every slot free and ids from 1 |
| `Data.Endpoint.Send` | core/src/data.c:222-270 | sending fails exactly for empty content or a full outbound half; otherwise a free outbound slot holds the offer, the offer is sent, and the id counter steps over zero |
| `Data.Endpoint.PumpSender` | core/src/data.c:273-297 | the loop does to its slot, and sends, exactly what the window function says |
| `Data.Endpoint.Accept` | core/src/data.c:301-312 | only an offered stream starts receiving, and the granted window is sent |
| `Data.Endpoint.Reject` | core/src/data.c:314-324 | only an offered stream is refused, freed and counted |
| `Data.Endpoint.Cancel` | core/src/data.c:326-335 | any open stream is aborted, freed and reported cancelled |
| `Data.Endpoint.RxOffer` | core/src/data.c:347-410 | a repeated offer is answered again, a full table refuses, an oversized or empty offer is refused, anything else opens one inbound slot; no other slot changes |
| `Data.Endpoint.RxChunk` | core/src/data.c:412-475 | an out-of-order chunk is discarded, an overrunning one aborts, the expected one is folded, handed on and answered |
| `Data.Endpoint.TakeNext` | core/src/data.c:445-474 | the expected chunk: checksum, hook, positions, and DONE with its verdict or an ACK each half window |
| `Data.Endpoint.Rx` | core/src/data.c:477-576 | a non-offer operation changes exactly the slot it is looked up to, and nothing when there is none |
| `Data.Endpoint.Dispatch` | core/src/data.c:508-575 | each operation does to its slot exactly the slot function of that operation |
| `Data.Endpoint.RxAck` | core/src/data.c:532-563 | an ACK moves the acknowledged position forward only, rewinds once per position, takes the new window and pumps |
| `Data.Endpoint.Tick` | core/src/data.c:580-644 | every slot is ticked once, independently of the others; frames and hooks come in slot order and no transfer is counted as successful |
| `Data.Endpoint.TickSlot` | core/src/data.c:582-643 | one slot: idle timeout, retry budget, repeated offer or rewind to the acknowledged chunk |
| `Data.Endpoint.SlotFind` | core/src/data.c:121-132 | the first slot in the right half with that peer and id |
| `Data.Endpoint.SlotFree` | core/src/data.c:108-119 | the first free slot of the right half, or proof that there is none |
| `Data.Endpoint.Finish` | core/src/data.c:168-192 | the slot is cleared, one hook is called, and only an OK result is counted |
| `Crc16.Update` | core/src/crc16.c:7-20 | the nested loops compute the bit-by-bit register function |
| `Crc16.BitsLinear` | core/src/crc16.c:11-17 | shifting is linear over exclusive-or |
| `Crc16.ByteStepInjective` | core/src/crc16.c:7-20 | the same byte never merges two registers |
| `Crc16.WordInjective` | core/src/crc16.c:7-20 | the update is injective in each 16-bit word it takes in |
| `Crc16.TailInjective` | core/src/crc16.c:7-20 | different registers stay different over any common tail |
| `Crc16.CrcConcat` | core/src/crc16.c:7-20 | the register over a concatenation continues from the first part |
| `Crc16.BurstDetected` | core/src/crc16.c:7-20 | any change confined to two adjacent bytes, anywhere in strings of any length, changes the register |
| `Crc16.HighHalfForgets` | core/src/crc16.c:10-17 | of all changes to the last byte exactly one, 0x89, leaves the high half of the register alone, and turns the low half by 0xA1 |
| `Crc16.LastByteChange` | core/src/crc16.c:10-17 | what a change of the last byte does to the register, whatever came before |
| `Crc16.CheckValue` | core/src/crc16.c:7-20 | the register over the nine digits is 0x29B1, the value that tells CRC-16/CCITT-FALSE from its relatives |
| `Frame.RoundTrip` | core/src/frame.c:71-106 | a body decodes, with or without the key, to exactly the frame it was built from |
| `Frame.DecodeIsCanonical` | core/src/frame.c:135-180 | whatever decodes under the key is byte for byte the body built from the decoded frame under that key |
| `Frame.Layout` | core/include/dhp/frame.h:59-65 | where each field of a body is, numbers low octet first, the check over all before it |
| `Frame.LeavesWithHops` | core/src/frame.c:89 | a frame leaves with the hop limit it is given, or with twenty if it is given none |
| `Frame.TagIsOfAllButHops` | core/src/frame.c:23-34 | the tag is the low half of the keyed hash of every covered octet but the hop limit, whole payload included |
| `Frame.TagBindsAllButHops` | core/src/frame.c:20-34 | two frames of one length share their tag under every hash if and only if they differ in nothing but the hop limit |
| `Frame.AcceptedIffTagged` | core/src/frame.c:36-50 | a body that is intact otherwise is accepted under the key if and only if it carries the tag of exactly those octets |
| `Frame.ForgeryNeedsCollision` | core/src/frame.c:163-166 | a body that decodes under the key with a genuine frame's tag, but is not that frame with another hop limit, shows two inputs on which the low 32 bits of the hash collide |
| `Frame.BurstIsCrcError` | core/src/frame.c:142-150 | damage confined to two adjacent covered bytes of a valid body is refused, as a CRC error, with or without a key |
| `Frame.BurstAnywhere` | core/src/frame.c:142-166 | any two adjacent bytes of the whole body, the check included: the damage is a CRC error in every case but one, the last tag byte turned by 0x89 and the first check byte by 0xA1; that one is an authentication error with the key, and passes as the frame that was sent without |
| `Frame.ForwardCountsDown` | core/src/frame.c:230-248 | forwarding a genuine body is rebuilding it with one hop fewer, the tag untouched, and is refused exactly at the last hop |
| `Frame.ForwardingEnds` | core/src/frame.c:230-248 | after any k < ttl forwards the frame still decodes with ttl - k and everything else unchanged; from the ttl-th on it is always refused |
| `Framing.LineIsDecoded` | core/src/frame.c:182-228 | from any decoder state and after any garbage, any sequence of encoded frames with any number of extra flags between them is reported frame by frame, in order, none lost to resynchronisation |
| `Framing.WireFromAnyState` | core/src/frame.c:186-203 | the opening flag settles whatever was pending, and the body is reported exactly once, by the closing flag |
| `Framing.StuffedIsCollected` | core/src/frame.c:211-227 | a synchronised decoder collects exactly the bytes that were stuffed and reports nothing meanwhile |
| `Framing.IdleIsSilent` | core/src/frame.c:186-203 | any number of idle flags is invisible to a synchronised decoder |
| `Framing.NoFlagInside` | core/src/frame.c:52-69 | a wire image holds no flag between its two, and flag and escape travel as section 4.2 of RFC 1662 has them |
| `Framing.ReportedIffItFits` | core/src/frame.c:182-225 | whatever stands between two flags is reported once, at the second, if and only if it is not empty and not longer than the longest body, and the decoder is then synchronised |
| `Framing.FeedConcat` | core/src/frame.c:182-228 | feeding is a homomorphism: state and reports over a concatenation |
| `Framer.Emit` | core/src/frame.c:52-69 | one byte, stuffed, is appended to the buffer if it fits, and nothing is written otherwise |
| `Framer.Encode` | core/src/frame.c:71-127 | the buffer holds exactly the flagged and stuffed body of the frame, ttl 0 becoming the default, or the error the code returns |
| `Framer.BuildBody` | core/src/frame.c:85-107 | the body array is header, payload, tag over all but the ttl, and check |
| `Framer.ForwardPrepare` | core/src/frame.c:230-248 | the array is edited in place to the forwarded body; a refusal is the one the forwarding function gives, and leaves the hop byte counted down and nothing else changed |
| `Framer.Restuff` | core/src/link.c:195-208 | a relayed body is flagged and stuffed as the encoder would |
| `Framer.Framer.Push` | core/src/frame.c:182-228 | one byte moves the decoder and reports exactly as the decoder function says; the four counters count accepted, CRC-damaged, unauthentic and overrun frames |
| `Framer.Framer.Finish` | core/src/frame.c:135-180 | a completed body is judged as the decoding function says |
| `ClientFlow.ScheduleIsFaithful` | firmware/rp2040/src/clientlink.c:28-47 | for every schedule of deliveries and drains, whatever state the client's decoder starts in, what it reports is exactly the items the ring accepted, in order: padding falls between items only |
| `ClientFlow.WholeItemIsReported` | firmware/rp2040/src/clientlink.c:51-65 | a frame queued whole, or lacking only its closing flag, is reported as that frame |
| `ClientFlow.CutItemReportsOnce` | firmware/rp2040/src/clientlink.c:30-37 | a frame cut short by a full ring yields at most one report; that it harms no other is ScheduleIsFaithful |
| `ClientFlow.ClientSeesFrames` | firmware/rp2040/src/clientlink.c:174-192 | when nothing was cut, the frames the client has seen are a prefix of those delivered, and draining the ring completes the list |
| `ClientFlow.UncutItems` | firmware/rp2040/src/clientlink.c:28-41 | the items of an uncut schedule are the delivered frames |
| `ClientFlow.KeptWholeIffItFits` | firmware/rp2040/src/clientlink.c:28-41 | what is pushed is kept whole if and only if no more than 2047 octets then wait |
| `ClientFlow.DrainingEmpties` | firmware/rp2040/src/clientlink.c:174-192 | every drain sends 64 octets, oldest first, until none waits |
| `ClientFlow.GateAdmitsDataOnly` | firmware/rp2040/src/clientlink.c:97-139 | whatever a client sends, the chain sees exactly its DATA frames from after attachment, in order, and its capabilities never leave the level 3 bits |
| `ClientFlow.AttachIsMasked` | firmware/rp2040/src/clientlink.c:97-118 | an ATTACH leaves the client attached with exactly bits 4 to 7 of its bitmap, and puts nothing on the chain |
| `ClientLink.Proxy.TxPush` | firmware/rp2040/src/clientlink.c:28-41 | the ring appends exactly the part that fits, one byte short of its size |
| `ClientLink.Proxy.TxPending` | firmware/rp2040/src/clientlink.c:43-47 | the index arithmetic is the number of queued bytes |
| `ClientLink.Proxy.SendLocal` | firmware/rp2040/src/clientlink.c:51-65 | an encodable frame is pushed as its wire image |
| `ClientLink.Proxy.Deliver` | firmware/rp2040/src/clientlink.c:67-77 | a frame is queued exactly while a client is attached, with the default hop limit |
| `ClientLink.Proxy.DrainReport` | firmware/rp2040/src/clientlink.c:174-192 | one 64-byte report: the oldest queued bytes, then flags, removed from the ring |
| `ClientLink.Proxy.Task` | firmware/rp2040/src/clientlink.c:154-193 | a silent client is detached with ring, decoder and session history reset; otherwise the status is queued when due, with its number and its next time stepped exactly then, and one report drained when the endpoint is ready |
| `ClientLink.Proxy.Handle` | firmware/rp2040/src/clientlink.c:97-139 | one client frame passes the gate as the gate function says; a first attachment makes the status due at once |
| `ClientLink.Proxy.RxReport` | firmware/rp2040/src/clientlink.c:141-150 | a report is decoded byte by byte and every good frame goes through the gate, in order; the time of last reception moves exactly if there was one, and a first attachment makes the status due at once |
| `Link.AheadOfCounter` | core/src/link.c:83-96 | behind the 16-bit counter, a later frame is taken for new if and only if the gap modulo 65536 is neither zero nor within 1024 of a full turn |
| `Link.WindowTurns` | core/src/link.c:83-96 | the input at which the window fails: 65536 unseen frames make the next one a replay |
| `Link.WireCarriesFrame` | core/src/link.c:171-215 | byte for byte: fed the wire image of a frame in any decoder state, a keyed board reports that frame, and what it relays is the image of the frame with one hop fewer |
| `Link.FateOf` | core/src/link.c:217-267 | exactly when a frame is ignored as the board's own, refused as a replay, delivered, passed on with one hop fewer, or dropped for want of hops |
| `Link.NothingOfItsOwn` | core/src/link.c:217-267 | whatever a board is handed, it never delivers a frame that claims to be its own or is for somebody else |
| `Link.Node.SeenGet` | core/src/link.c:43-59 | the entry of the source, else the first free one, else none |
| `Link.Node.SeqIsFresh` | core/src/link.c:66-97 | verdict and table of the replay window |
| `Link.Node.Send` | core/src/link.c:141-167 | a keyed board puts the same frame on both ports under one sequence number; without a key nothing leaves, and the number is used up either way |
| `Link.Node.Relay` | core/src/link.c:171-215 | the body leaves on the opposite port with one hop fewer, or is counted as dropped |
| `Link.Node.Handle` | core/src/link.c:236-268 | own frames, replays, relaying and delivery as the fate of the frame says |
| `Link.Node.RxByte` | core/src/link.c:217-268 | each byte moves the decoder of its port only, and acts only when a frame completes, which alone marks the neighbour heard; an unkeyed board acts on pairing frames and refuses all others unseen |
| `Link.Node.Tick` | core/src/link.c:270-282 | a silent neighbour is forgotten and its decoder reset |
| `Line.DeliveredIsGenuine` | core/src/link.c:217-268 | on a line of any number of boards with distinct addresses, under every interleaving and loss: whatever a board is handed was really sent by another board, to it or to all, unchanged but for one hop per board passed |
| `Line.DeliveredAtMostOnce` | core/src/link.c:66-97 | and no frame is handed over twice: frames of one source come in the order sent |
| `Line.PositionIsTrue` | core/src/router.c:53-63 | for every frame about to arrive anywhere, arrival port and remaining hops give exactly the sender position relative to the receiver |
| `Line.NextKeeps` | core/src/link.c:141-268 | sends, arrivals and losses keep what is true of every wire, mark and replay window |
| `Delivery.BroadcastReachesEveryone` | core/src/link.c:141-167 | when nothing is lost, on up to 21 boards, with any mix of broadcasts and frames for single boards and no source unheard for too long: every broadcast is at all times either handed to each other board or still on a wire |
| `Delivery.UnicastReachesItsBoard` | core/src/link.c:256-267 | likewise every frame for one board is handed to that board or still on a wire |
| `Delivery.NothingRefusedIffSpaced` | core/src/link.c:83-96 | the spacing is exact: on up to 17 boards, once the wires are silent after a run without losses, no frame was ever refused as a replay if and only if no two successive frames that come by a board are a multiple of 65536, or up to 1024 short of one, apart |
| `Delivery.OftenBroadcastIsSpaced` | core/src/link.c:61-65 | a source that broadcasts at least once in any 64511 frames running is spaced well enough |
| `Delivery.LullDropsABroadcast` | core/src/link.c:83-96 | a run past the bound: nothing is lost, and after 65535 frames that stop at the second board the third takes the next broadcast for a replay and never gets it |
| `Delivery.SpacedIsComplete` | core/src/link.c:217-268 | without losses and well spaced, nothing is refused and everything that is meant to come by a board has been taken or is on the wire to it |
| `Delivery.Whereabouts` | core/src/link.c:171-215 | a frame has come by every board it is meant to come by, or is on its way |
| `Uhrp.Strongest` | core/src/uhrp.c:204-229 | the best rank: at least our own, held by somebody, and beaten by nobody in the table |
| `Uhrp.Backup` | core/src/uhrp.c:208-238 | the standby: the best of the boards that do not hold the role |
| `Uhrp.PriorityFromCaps` | core/src/uhrp.c:25-33 | never zero, and at least 150 exactly for coordinators |
| `Uhrp.Speaker.constructor` | core/src/uhrp.c:332-345 | a board starts outside the election with an empty table, its priority derived if not set |
| `Uhrp.Speaker.PeerAge` | core/src/uhrp.c:81-89 | exactly the entries silent for the hold time disappear |
| `Uhrp.Speaker.Survey` | core/src/uhrp.c:203-238 | one loop finds the best board and the standby |
| `Uhrp.Speaker.BecomeActive` | core/src/uhrp.c:122-143 | promotion, with a release and its report exactly after an unclean vacancy of a known holder |
| `Uhrp.Speaker.ServiceResign` | core/src/uhrp.c:160-183 | a pending resignation waits for the keys or the deadline, and releases when keys are still held |
| `Uhrp.Speaker.Reevaluate` | core/src/uhrp.c:193-326 | ageing, survey and the decision for every role, as the evaluation function says |
| `Uhrp.Speaker.Start` | core/src/uhrp.c:347-354 | learning begins |
| `Uhrp.Speaker.RxHello` | core/src/uhrp.c:356-381 | a hello updates or adds one entry and is then evaluated; a full table ignores newcomers |
| `Uhrp.Speaker.RxResign` | core/src/uhrp.c:383-405 | a resignation demotes its sender and leaves a clean vacancy if the sender was the tracked holder |
| `Uhrp.Speaker.Tick` | core/src/uhrp.c:412-433 | a lost holder makes the vacancy unclean before evaluation; hellos fall due |
| `Uhrp.Speaker.TakeEvents` | core/src/uhrp.c:435-440 | events are handed out once |
| `Handover.LeavesOnlyByResigning` | core/src/uhrp.c:160-183 | in every run a board leaves ACTIVE only by resigning to LISTEN, because of a live, strictly better peer it saw since promotion and while ACTIVE ever since; with keys held only past the deadline set at that sighting, and with a release |
| `Handover.PendingHandoverIsBounded` | core/src/uhrp.c:160-183 | a board asked to resign keeps the role if and only if keys are held and the deadline is ahead |
| `Handover.WeakestYields` | core/src/uhrp.c:268-288 | among any number of boards that hear each other hold the role, the weakest always schedules or performs its resignation |
| `Handover.StrongestYieldsOnlyToPreemption` | core/src/uhrp.c:268-288 | the strongest of them yields if and only if the best live peer is better still and asks for the role |
| `Handover.TimeoutPromotionReleases` | core/src/uhrp.c:412-427 | if a tick is the first to see the tracked holder expire, any promotion on that tick or later, before another holder speaks up or the tracked one resigns, emits release and promoted_by_timeout |
| `Handover.StandbyTakesOverAtOnce` | core/src/uhrp.c:301-315 | a standby with no live active or better peer takes over on the very tick that sees the loss |
| `Handover.CleanHandoverReleasesNothing` | core/src/uhrp.c:396-404 | after a RESIGN of the tracked holder, the promotion that fills the vacancy, then or later, adds no release |
| `Handover.FailoverReleasesIff` | core/src/uhrp.c:368-427 | exactly when a failover releases: whether the vacancy is filled on the step that notices the loss or any number of steps later, the promotion asks for a release if and only if that step was a tick, or the vacancy was already unclean and the step did not answer it |
| `Handover.UncleanIffLost` | core/src/uhrp.c:418-425 | what unclean means: in every run, some tick saw a tracked holder vanish and no ACTIVE hello of another board and no RESIGN of the tracked one has been taken in since |
| `Handover.HelloHidesTheLoss` | core/src/uhrp.c:193-199 | the whole failing family: any hello that arrives after the hold time and before the tick promotes the standby with no release |
| `Handover.ExampleMissesRelease` | core/src/uhrp.c:356-381 | a concrete run in which the release is missed |
| `Handover.AskedByStep` | core/src/uhrp.c:160-183 | one step asks for a resignation only when the role is given up, and then with a release if keys are held; a promotion always reports a state change |
| `Handover.PendingHasCause` | core/src/uhrp.c:151-158 | a pending resignation always goes back to a sighting of a better live peer in the same tenure, which set the deadline |
| `Handover.RunIsSound` | core/src/uhrp.c:347-354 | what every run keeps: pending resignations only while ACTIVE, no tracked holder while learning, and a tracked holder was once heard |
| `Contention.RoleDecision` | core/src/uhrp.c:193-326 | what every judging entry point makes of a board that does not hold the role, told by whom it hears: learning until its time unless a holder is heard; following, on standby exactly if no better follower is heard; else promoted if on standby or past the hold time of contending, and contending otherwise |
| `Contention.UnopposedBoardTakesTheRole` | core/src/uhrp.c:301-326 | contention ends: a board that at no step of a run hears a holder or a better board holds the role after any tick past its learning time, past the hold time since it began to contend, or, if listening, since it first judged |
| `Contention.UnopposedBoardKeepsTheRole` | core/src/uhrp.c:267-288 | and keeps it for as long as that lasts |
| `Contention.BestBoardWins` | core/src/uhrp.c:193-326 | a chain without a holder, in any interleaving in which boards that are gone are silent and boards that are ripe hear the best one: after a tick of the best board that has waited its time, it holds the role and nobody else does |
| `Contention.OnlyTheBestEverHolds` | core/src/uhrp.c:10-17 | over every such run no other board ever holds the role, and the best has nobody in its way |
| `Contention.ContendingStep` | core/src/uhrp.c:193-326 | the same for one step of the chain |
| `Contention.OthersFollow` | core/src/uhrp.c:290-299 | a board that hears the best one hold the role follows it |
| `Contention.SwitchedOnContends` | core/src/uhrp.c:347-354 | boards switched on together are such a chain |
| `Contention.CapabilitiesDecide` | core/src/uhrp.c:26-34 | ranks follow the capabilities as a binary number: coordinator, then input, then display, then settings |
| `Contention.ResigningIsHeard` | core/src/uhrp.c:389-394 | a board that stands down stays in the table as a follower and counts as live for another hold time |
| `Contention.DefaultsFillIn` | core/src/uhrp.c:332-345 | no board runs without a hello interval; the defaults let a peer miss two hellos; rank and timing that are configured are kept |
| `Election.ConvergedStays` | core/src/uhrp.c:193-326 | a converged chain of any number of boards stays converged under every interleaving of ticks, announcements, deliveries (lost, repeated, reordered) and key changes in which no peer is silent for the hold time |
| `Election.NothingEverChanges` | core/src/uhrp.c:193-326 | at no step of such a run does any role or standby choice change, or any board ask for a resignation, a release or a promotion |
| `Election.Undisturbed` | core/src/uhrp.c:193-326 | evaluation of a live and true table in a converged chain changes nothing at all |
| `Election.StandbyIsElected` | core/src/uhrp.c:203-238 | every board, the holder included, elects the same standby |
| `Election.HolderStays` | core/src/uhrp.c:268-285 | no entry of a true table makes the holder yield unless the best board is better and preempting |
| `Election.PairIsConverged` | core/src/uhrp.c:290-299 | a holder and a standby that have just heard each other form a converged chain |
| `Hid.HeldMeansPressed` | core/src/hid.c:32-46 | a slot counts as held if and only if something it was told is not undone |
| `Hid.LiftLeavesNothing` | core/src/hid.c:80-99 | building a release leaves nothing pressed on that slot and touches no other |
| `Hid.Tracker.Note` | core/src/hid.c:11-21 | a keyboard report is recorded in its slot and nowhere else |
| `Hid.Tracker.NoteButtons` | core/src/hid.c:23-30 | buttons are recorded in their slot and nowhere else |
| `Hid.Tracker.AnythingHeld` | core/src/hid.c:56-64 | whether any slot is held |
| `Hid.Tracker.BuildRelease` | core/src/hid.c:80-99 | due exactly if the slot is held, and then the slot is lifted and both reports are empty |
| `Hid.Tracker.ForgetSlot` | core/src/hid.c:101-107 | the slot is cleared without a report |
| `Ledger.OnlyTheFocusedMachineHolds` | core/src/router.c:164-225 | no key is left held: in every run whose input goes to machines in the table, a machine that believes anything pressed because of this board has the focus, this board holds the role, and the election knows keys are held |
| `Ledger.TrackerIsTruth` | core/src/router.c:127-157 | in every such run the tracker slot of each known machine equals what the machine was last told, and is held exactly when that is something |
| `Ledger.ResignsEmptyHanded` | core/src/router.c:350-360 | at every RESIGN in the output of any such run, every machine had already been released |
| `Ledger.ForcedResignationIsPrecededByRelease` | core/src/router.c:298-319 | when the election gives up with keys held, the broadcast release and the own reports stand right before the RESIGN; otherwise nothing was held |
| `Ledger.NextKeeps` | core/src/router.c:471-661 | every entry point of the router keeps tracker, ledger, focus and election consistent, provided input it sends on goes to a machine in the table |
| `Ledger.FocusedKeeps` | core/src/router.c:194-225 | moving the focus leaves nothing held anywhere, whether the old focus was known or not |
| `Ledger.DrainedKeeps` | core/src/router.c:350-403 | carrying out any admissible set of election events keeps the invariant |
| `Anchors.OwnMachineIsAlwaysAnchored` | core/src/router.c:371-399 | over every run of a booted board that keeps a machine of its own, whatever arrives: while it holds the role it serves a machine in its table, provided whoever sets the focus directly names one; so all the ledger results hold of it |
| `Anchors.ConsiderateRunsAreAnchored` | core/src/router.c:371-399 | any board, over every run from its start: if each promotion finds it with somebody to serve and whoever sets the focus names a board in the table, it serves a machine in its table whenever it holds the role, and the ledger results hold of it |
| `Anchors.ConsiderateStep` | core/src/router.c:471-661 | every entry point under that condition keeps the board serving a machine it knows |
| `Anchors.PromotionAnchorsIff` | core/src/router.c:327-348 | any board: a promotion leaves it serving a machine in its table if and only if it has one of its own, knows another screen, or remembers a focus it knows |
| `Anchors.LonelyCoordinatorIsUnanchored` | core/src/router.c:377-382 | a run in which it does not: a coordinator booted alone holds the role with no machine to serve |
| `Ledger.FocusArmReleasesNothing` | core/src/router.c:581-588 | in every run the release in the FOCUS arm finds nothing to release: on a board without the role a FOCUS only changes the focus and reports it |
| `Ledger.FlagMovesWithInputOnly` | core/src/router.c:471-516 | the flag that defers a handover becomes exact with every report sent on to the focused machine and is left alone by every other entry point |
| `Ledger.FlagExactIff` | core/src/router.c:480-484 | after any step of a run the flag says exactly whether anything is held if and only if the step sent input on, the flag was down, or something is still held |
| `Ledger.SwitchLeavesFlagUp` | core/src/uhrp.c:160-183 | switching away with a key down releases it but leaves the flag up, so a pending handover then happens if and only if its deadline has passed, with a release that has nothing to release |
| `Anchors.UnknownFocusConfusesOwnSlot` | core/src/router.c:39-49 | why focus targets must be known: typing at an unknown address keeps the tracker true if and only if the report repeats what the own machine was last told |
| `Anchors.UnknownFocusLeavesKeyStuck` | core/src/router.c:39-49 | the run that leaves a key down: an unknown address gets the focus, a key is typed, the board appears in the table, the focus moves on; the release looks in the new slot and whatever was typed stays pressed |
| `Anchors.LonelyCoordinatorLeavesKeyStuck` | core/src/router.c:194-225 | such a run from the start of a board |
| `Arrival.FollowerIsTransparent` | core/src/router.c:552-637 | from its start and for as long as it follows, a board has handed its machine and client exactly what was delivered to it, all of it, in order, a RELEASE as the two empty reports |
| `Arrival.FollowerHandsOver` | core/src/router.c:518-640 | the same for one step |
| `Arrival.FrameIsHandedOver` | core/src/router.c:552-566 | whatever its role, a board hands over what a KBD, MOUSE, RELEASE or DATA frame carries |
| `Arrival.MachineFeelsWhatItWasTold` | core/src/router.c:127-157 | end to end: if the frames a speaking board has sent to another are delivered there in order, that machine has pressed exactly what the tracker of the speaking board says, and if that is anything it has the focus |
| `Arrival.FramesCarryWhatIsTold` | core/src/router.c:127-157 | the frames sent to a board make its machine feel what the ledger says it was told |
| `Arrival.InputGoesToTheFocusOnly` | core/src/router.c:471-516 | a report taken by the speaking board goes to the focused machine, directly or in one frame, and to no other |
| `Arrival.KeystrokeArrives` | core/src/router.c:450-484 | a keystroke on any board with input goes to the speaking board, from there to the machine in focus and into it, unchanged |
| `Arrival.MotionArrives` | core/src/router.c:487-516 | and so does a movement that does not cross an edge |
| `Arrival.StrangersCannotType` | core/src/router.c:598-608 | input frames of a board not known to have input, or on a board that does not speak, do nothing |
| `Arrival.SpeakerAnnouncesItsFocus` | core/src/router.c:371-399 | over runs whose promotions find somebody to serve, the focus a speaking board has last announced is the one it has |
| `Arrival.FollowerHearsFocus` | core/src/router.c:569-580 | a board that follows has the focus it last heard announced |
| `Arrival.FailoverKeepsTheFocus` | core/src/router.c:371-399 | a board that takes the role keeps the focus it knows, whatever made it take it, and announces it |
| `Presence.DueHelloIsSaid` | core/src/router.c:362-369 | a tick that finds a hello due says it, with role, rank and capabilities as they then are, and the next is due an interval later |
| `Presence.RoleChangeIsSaid` | core/src/router.c:350-369 | a board that takes the role says a hello with it in the same step, and one that gives it up says so |
| `Presence.AnnouncesWhatItHas` | core/src/router.c:640-653 | over every run, capabilities coming and going: a board announces what it has, ranks as those capabilities earn, and lists itself so |
| `Presence.HelloIntroduces` | core/src/router.c:531-547 | a board that hears a hello knows exactly what its sender can do, so lets it type if and only if it has input |
| `Presence.TableIsATrueMap` | core/src/router.c:521-529 | over every run on a line of boards, every other board in the table is as far away, and on the side, as its entry says |
| `Presence.LineSurveys` | core/src/router.c:521-529 | that is how the line delivers every frame |
| `Presence.TrueMapIsMapped` | core/src/router.c:83-121 | such a table is the map steering needs, with no two boards in one place |
| `Presence.FirstFocus` | core/src/router.c:327-348 | a board promoted without a known focus sends the user to its own machine if it has one, else to the closest screen |
| `Ledger.BootKeeps` | core/src/router.c:409-443 | a freshly started router satisfies the invariant |
| `Router.Nearest` | core/src/router.c:94-120 | the nearest admissible machine in that direction, if there is one |
| `Router.NextScreen` | core/src/router.c:245-264 | the nearest screen after a position |
| `Router.FirstScreen` | core/src/router.c:245-264 | the screen furthest up-chain |
| `Router.ClosestScreen` | core/src/router.c:333-347 | the screen closest to this board |
| `Steering.ThereAndBack` | core/src/router.c:76-121 | stepping across an edge and straight back leads home, between any two neighbouring screens |
| `Steering.EdgeLeads` | core/src/router.c:497-503 | by table positions: a shove over the left or upper edge moves the focus to the greatest reachable position below the old one, over the right or lower edge to the least above, and leaves it exactly if there is none |
| `Steering.ButtonReachesEveryScreen` | core/src/router.c:233-270 | from any screen, enough presses of the button reach any other |
| `Steering.PressingReachesEveryScreen` | core/src/router.c:233-270 | on a speaking board enough presses take the user from any screen to any other |
| `Steering.PressElsewhere` | core/src/router.c:237-239 | on any other board the button does nothing |
| `Steering.PressLeads` | core/src/router.c:241-269 | the button moves to the nearest screen after the focus, and from the last to the first |
| `Steering.ShoveReseats` | core/src/router.c:496-511 | after any crossing gesture the integrator is re-seated as if on the next screen; the focus moves if and only if there is a board that way |
| `Steering.ShoveAtTheEndIsRemembered` | core/src/router.c:508-510 | so at the last screen the gesture does not do nothing: the way back costs 2 * span + push_threshold before it and reentry_guard + push_threshold after it, with the focus unchanged |
| `Switch.Board.constructor` | core/src/router.c:409-436 | the initial router, with its own slot reserved |
| `Switch.Board.Start` | core/src/router.c:438-443 | the election starts and its events are drained |
| `Switch.Board.ChainGet` | core/src/router.c:20-35 | the entry of an address, added in the first free slot if there is room |
| `Switch.Board.Slot` | core/src/router.c:39-49 | the tracker slot of an address |
| `Switch.Board.Neighbour` | core/src/router.c:83-121 | the loop finds the nearest machine in a direction |
| `Switch.Board.NextOnButton` | core/src/router.c:241-268 | the loop finds the next screen, or the first |
| `Switch.Board.PickDefaultFocus` | core/src/router.c:327-348 | the own machine, else the closest screen |
| `Switch.Board.SendKbdTo` | core/src/router.c:127-141 | a keyboard report is recorded and sent |
| `Switch.Board.SendMouseTo` | core/src/router.c:143-157 | a mouse report is recorded and sent |
| `Switch.Board.ReleaseMachine` | core/src/router.c:164-188 | a held machine is told to let go of everything, any other is told nothing |
| `Switch.Board.ApplyFocus` | core/src/router.c:194-225 | release first, then the switch, the pointer and the announcement |
| `Switch.Board.BroadcastReleaseAll` | core/src/router.c:298-319 | the broadcast, the forgetting of every known slot, and the own machine |
| `Switch.Board.DrainUhrp` | core/src/router.c:350-403 | the election events are carried out in order: release, resign, hello, inherited focus |
| `Switch.Board.LocalKbd` | core/src/router.c:471-485 | a report is handed on, or sent to the focus and the held state passed to the election |
| `Switch.Board.LocalMouse` | core/src/router.c:487-516 | a report is handed on, crosses to a neighbour and is dropped, or is sent to the focus |
| `Switch.Board.Button` | core/src/router.c:233-270 | only the holder of the role moves the focus |
| `Switch.Board.SetFocus` | core/src/router.c:227-231 | an explicit change of focus |
| `Switch.Board.Rx` | core/src/router.c:518-638 | every message type, after noting where its sender sits |
| `Switch.Board.SetCaps` | core/src/router.c:640-653 | capabilities change here, in the election rank and in the own entry |
| `Switch.Board.Tick` | core/src/router.c:655-661 | the election ticks and is drained |
| `Pointer.AlwaysContained` | core/src/pointer.c:70-99 | for any reports, travel stays within the clamp, push stays below the threshold, and there is push only at the clamp |
| `Pointer.CrossingIsPaidFor` | core/src/pointer.c:70-99 | from any such state the first crossing took at least the travel missing to that edge plus the push missing to the threshold, in motion towards it |
| `Pointer.GoingBackCosts` | core/src/pointer.c:101-138 | after leaving through one edge, crossing back costs at least reentry_guard + push_threshold of motion the other way, whatever else the mouse did |
| `Pointer.GoingBackCostsNoMore` | core/src/pointer.c:101-138 | that price is exact, at all four edges |
| `Pointer.CrossingIsAtTheClamp` | core/src/pointer.c:77-83 | a crossing is only ever made from the clamp of its edge |
| `Pointer.SlowMotionNeverCrosses` | core/src/pointer.c:37-66 | reports at or below the decay rate and below the threshold never cross, however long they last and whatever push there was |
| `Pointer.SteadyShoveCrosses` | core/src/pointer.c:140-170 | a constant d per millisecond above the decay crosses its edge within ceil((span - travel)/d) + ceil(threshold/(d - decay)) reports, for all four edges |
| `Pointer.PushBleedsByTime` | core/src/pointer.c:37-65 | a push bleeds towards zero by the time really passed, across the wrap of the counter, times the rate |
| `Pointer.ArrivalIsContained` | core/src/pointer.c:106-138 | an arrival lands inside the clamp if and only if 0 <= guard <= 2 * span |
| `Pointer.RestCrossesExactlyWithoutThreshold` | core/src/pointer.c:92-98 | a motionless report crosses if and only if the threshold is not positive |
| `Pointer.Integrator.constructor` | core/src/pointer.c:25-32 | a missing configuration or a non-positive span is replaced by the default |
| `Pointer.Integrator.Decay` | core/src/pointer.c:37-66 | push bleeds towards zero by the elapsed time |
| `Pointer.Integrator.AxisFeed` | core/src/pointer.c:70-99 | one axis, and whether it crosses |
| `Pointer.Integrator.Arrive` | core/src/pointer.c:106-138 | the position after entering through an edge |
| `Pointer.Integrator.Feed` | core/src/pointer.c:140-170 | one report: the edge crossed and the new state |
| `Agreement.PairedBoardsAgree` | core/src/auth.c:131-268 | two genuine boards that begin once each, in every run of begins, ticks, drains and deliveries with any loss, repetition, reordering and echo: boards that have heard each other hold equal keys and strings, aborted boards hold none |
| `Agreement.BadConfirmIffSpoiled` | core/src/auth.c:247-261 | over every such run a board ends with BAD_CONFIRM if and only if, while waiting or done, it was once handed a tag that its peer had sent only after aborting, and zeros in place of the peer's secret make another tag than the secret it began with |
| `Agreement.PromptRunsNeverCallItBad` | core/src/auth.c:247-261 | if every waiting confirmation is sent before its sender aborts, no board ever ends with BAD_CONFIRM |
| `Agreement.LateConfirmIsRefusedIff` | core/src/auth.c:172-192 | a confirmation drained after an abort carries the tag that zeros make in place of the begun secret; the other genuine board, waiting or already done, aborts with BAD_CONFIRM and wipes its key if and only if that tag is not the one it expects, and is done with its key otherwise |
| `Agreement.LateDrainBreaksPairing` | firmware/rp2040/src/main.c:478-481 | a concrete run of two genuine boards that ends in BAD_CONFIRM, by a timeout between hearing the offer and draining |
| `Agreement.LateDrainRevokesPairing` | firmware/rp2040/src/main.c:478-481 | a concrete run in which that tag revokes a pairing that was already DONE: a repeated offer asks for the confirmation again and the timeout comes before the drain |
| `Agreement.SecondOffererForcesAbort` | core/src/auth.c:220-228 | two different boards offering inside the window always end in ABORTED with no key, whatever happens before, between and after, until the next begin |
| `Agreement.NextKeeps` | core/src/auth.c:270-319 | the two-board invariant is kept by every begin, delivery, tick and drain |
| `Agreement.ExpectedIsGenuine` | core/src/auth.c:157-164 | the confirmation one board expects is the one the other sends |
| `Binding.TranscriptBindsBoth` | core/src/auth.c:107-126 | two exchanges have one transcript if and only if they are between the same two offers, uid, public half and nonce of both |
| `Binding.EqualStringsBindOffers` | core/src/auth.c:131-164 | two boards under a network that may inject anything: if they show equal strings or hold equal keys, each one's peer is exactly the other's genuine offer, or the derivation has collided on these two arguments |
| `Binding.StringsAgreeIffGenuine` | core/src/auth.c:131-164 | without collisions, strings agree if and only if that is so, and so do keys |
| `Binding.ConfirmationsMatchIffGenuine` | core/src/auth.c:166-192 | and a board builds the confirmation another waits for if and only if they have heard each other |
| `Binding.PurposesAreSeparate` | core/src/auth.c:131-192 | key, string, confirmation sent and confirmation awaited are four different values |
| `Binding.DoneMeansConfirmed` | core/src/auth.c:247-268 | no board is done without having been handed the confirmation it expects |
| `Binding.PairingCompletes` | core/src/auth.c:194-268 | two boards that hear each other's offer and confirmation are done with equal key and string, whichever began first, since each repeats its offer with its confirmation |
| `Binding.WindowCloses` | core/src/auth.c:311-319 | the first tick after the window ends an open exchange without key or secret; a tick within it changes nothing |
| `Binding.AbortIsToBeTold` | core/src/auth.c:53-73 | every abort leaves a message for the peer and no key |
| `Binding.AbortSpreads` | core/src/auth.c:302-304 | and a board that hears it gives up whatever it has |
| `Binding.DefaultWindow` | core/src/auth.c:83-105 | a board that begins without a window of its own has thirty seconds |
| `Binding.LateOfferRevokesIff` | core/src/auth.c:280-294 | a third board that offers to one that is done, in full or cut short, revokes the pairing if and only if the window is still open |
| `Pairing.Exchanger.constructor` | core/src/auth.c:75-81 | an idle board |
| `Pairing.Exchanger.Begin` | core/src/auth.c:83-100 | a fresh exchange with a fresh key pair and nonce |
| `Pairing.Exchanger.AbortWith` | core/src/auth.c:53-73 | abort once, wiping key and secret |
| `Pairing.Exchanger.Derive` | core/src/auth.c:132-168 | key, string and expected confirmation from the common transcript, or failure for a degenerate key |
| `Pairing.Exchanger.RxOffer` | core/src/auth.c:194-245 | own echo, repeated offer, third party, first offer |
| `Pairing.Exchanger.RxConfirm` | core/src/auth.c:247-268 | a matching confirmation completes, a mismatch aborts |
| `Pairing.Exchanger.Rx` | core/src/auth.c:270-309 | dispatch, with late offers revoking a finished pairing while the window is open |
| `Pairing.Exchanger.Tick` | core/src/auth.c:311-319 | an open exchange times out |
| `Pairing.Exchanger.TakeAndBuild` | firmware/rp2040/src/main.c:169-198 | the messages the drained events ask for, in the order offer, confirmation, abort, built from the state at that moment |

## Left out

- SipHash, X25519, BLAKE2b, random numbers: foreign or keyed primitives, arbitrary functions here.
- `core/src/msg.c`, `core/src/local.c`, `core/src/level.c`, and the byte layout of DATA and PAIR payloads: messages are datatypes, with the too-short cases as cases of their own; they would add only easy members. The capability level of the router and its hook are left out with them.
- Firmware board, USB, PIO, flash and LED code, coordinator, client process: hardware glue, I/O and user interface.
- Re-entrant hooks (cancelling inside `on_chunk`, sending inside `on_sent`): hooks are logs, and accepting, refusing and cancelling are steps of their own.
- Signed 32-bit overflow in the pointer's arithmetic, which C leaves undefined: integers are unbounded there.
- Statistics counters do not wrap, and fields that the code writes but never reads (`t_active_expiry`, `active_uid`, `active_priority`, `offers_seen`, `peer_confirmed`, the hold time and derived flags of a hello) are omitted.
- `dhp_link_send_port`, `dhp_data_active`, `dhp_hid_key_count`, `dhp_router_chain_size`, name and hex formatting: nothing to prove beyond their bodies.
- That a pairing ever finishes when its messages are lost: nothing repeats one on its own.
- Board restarts that reset a sequence counter, and pairing begun twice by one board while messages of the first exchange are still around.
- Delivery.BroadcastReachesEveryone: lines of more than 21 boards exceed the hop limit.
- Delivery.NothingRefusedIffSpaced: lines of more than 17 boards, where the 16-entry replay table is full and lets everything through; that spaced runs are complete holds up to 21.
- Election.ConvergedStays: starts from a converged chain; `Contention.BestBoardWins` says when a chain gets its holder, how soon the standby settles is not stated.
- Ledger.OnlyTheFocusedMachineHolds: about what this board has told; reports that another board sends for this board's machine are passed on untracked, as in the code.
- Ledger.ResignsEmptyHanded: a frame handed to the link counts as told; that it reaches its board is the subject of `Line`.
- Recovery.LossesAreRepaired: about what follows one timeout; schedules that go on losing frames until the retries are used up end in TIMEOUT, as in the code.
- Transfer.DeliveryIsPrefix: one transfer with constant windows; the stream table of `Data` shows that slots do not interfere.
- ClientFlow.ClientSeesFrames: from the moment of attachment; a detachment empties the ring by design.
- Link.Node.Send: an error of the transmit hook is not modelled, since the hook has none.
