# Verification of the co-op networking core

A Dafny model of the protocol, codec and state-machine units of the KH2 co-op mod, with proofs of
what those units are for. `dafny verify dfyconfig.toml` checks the whole project.

Each unit the source writes as an object updated in place is modelled twice: once as a function
from state to state, about which the properties are proved over whole runs, and once as a class
whose methods are proved to compute that function, branch by branch, and to keep the object valid.
Codecs and digests are methods with loops, proved against a definition that does not mention the
loop.

| file | models |
|---|---|
| `Common`, `Bytes`, `Words` | machine integers, little-endian byte writers and readers, 32-bit word operations |
| `SteamBroker`, `BrokerObject` | the Steam broker: commands, status callbacks, per-peer queues, the end-of-session drain |
| `BrokerOrder`, `BrokerStream` | what the broker keeps over every run: send order, bounded queues, the shape of what it emits |
| `SteamTransport`, `SteamRejoin` | the joiner, joined to the broker by two FIFO pipes; rejoin safety |
| `SteamPayload`, `SteamDelivery`, `SteamSending` | the payloads: what a message carries, and that both directions deliver them in order |
| `SteamMembers` | whom the broker takes on and calls connected |
| `SteamEndings`, `SteamRejoinLimits` | exactly when the two ways a session ends keep it, and a run of each that does not |
| `SteamFrame`, `WireLayout` | the pipe's frame encoding; where each field of it and of a snapshot stands |
| `Sha256`, `Crc`, `Png` | the digest with virtual padding, the table-driven checksum, the chunk walk |
| `Sha256Constants`, `Sha256Meaning`, `PngMeaning` | that their constants and functions are the ones of FIPS 180-4 and ISO/IEC 15948 |
| `Snapshot`, `SnapshotMeaning` | a snapshot's validity, and what valid progress is |
| `SnapshotCodec`, `SnapshotIo` | its wire form, and writing and reading it |
| `Fingerprint`, `FingerprintExact` | the bytes hashed for a native fingerprint, and exactly which states share them |
| `Transfer` | cutting a snapshot into parts and putting it together again |
| `ResyncClient`, `ResyncObject` | the client's resync transaction, quarantine and source floor |
| `ResyncSafety`, `ResyncLimits` | what every run of it keeps, and two runs that reach the exceptions |
| `ResyncFence`, `ResyncProgress`, `ResyncSerials` | when the quarantine begins, what is handed out, and what is agreed with the session |
| `Admission`, `AdmissionRuns`, `AdmissionSafety` | the combat-admission barrier, alone and together with the game's frozen mask |
| `AdmissionProgress` | exactly when it arms, defers, accepts, admits and releases |
| `AdmissionOwnership` | whose frozen bit a release clears |
| `CausalLedger`, `CausalEngine`, `CausalSoundness` | the host's causal HP ledger and its ring of receipts |
| `CausalLaw`, `CausalMembers` | that it records or retires at every change of HP, and whom it follows |
| `Mailbox`, `MailboxProgress`, `CallbackGate` | two small lock-free protocols, as interleaved atomic steps |
| `RecordSelect`, `RecordLease`, `RecordProgress` | choosing an enemy population, and the lease on its exact matching |
| `MirrorStream`, `MirrorProgress`, `MirrorPose` | the mirrored-enemy stream: cursor, rings, release and retake, and what a pose is |
| `EventHold`, `DownedReturn` | bounded input automation, and the receipts and requests of a downed player's return |

What the proofs found, besides what holds:

- Rejoining is safe on every run in which a host-left Close finds its connection still there and a
  Join finds none being drained. A Close or Join served otherwise breaks it, unless the broker fails
  on its own: the first is answered twice, the second is refused as bad.
- The session-end envelope reports Disconnected while the connection stays. Unless it then ends by a
  remote close, drained or timed out, a second Disconnected follows, and until it ends a rejoin is
  refused.
- A ResyncRequest frame needs no envelope, so it meets no quarantine: a ready client hands it out in
  any state. Of the enveloped packets that are not ephemeral, exactly those admitted just before a
  friend's plan ends are handed out into a quarantine, because the deadline is read a second time
  after the quarantine is checked.
- The mirror cursor moves backwards exactly when the newest host frame crosses 2^32, because frames
  are compared as serials but the cursor is computed from them as numbers.
- The PNG walk accepts a chunk between two image-data chunks when every image-data chunk before it
  was empty, and only then departs from the contiguity of section 5.6 of ISO/IEC 15948.
- The barrier owns a frozen group by its bit, not by who set it: its release clears a bit it did not
  set exactly when the game had cleared that group and frozen it again since the lease's freeze.
- In the ledger the test that a changed HP has a cause is implied by the test that it is the
  expected HP.

## Model

| member | source | states |
|---|---|---|
| `SteamRejoin.RejoinIsSafe` | common/src/SteamTransport.cpp:84-141 | Over every interleaving of connects, closes (host-left ones included), disconnects, sends, pipe moves, broker commands, ticks and Steam events in which a host-left Close or a Join is served in time and no session-end envelope arrives: the debt counter is the number of closed connections whose Disconnected is not yet consumed, every delivered frame belongs to the newest Join, the broker never refuses a command of the runtime, and the head of the queue can always be placed |
| `SteamPayload.RoundTrip` | common/src/SteamBroker.cpp:109-116 | Whatever a Send accepted by one broker carries, a message with its wire taken by a receiving peer with output room adds exactly one Data frame with that channel, reliability and payload |
| `SteamPayload.SendCarries` | common/src/SteamBroker.cpp:108-117 | An accepted Send appends to the wires of its connection one whose header names its channel and reliability and whose rest is its payload, and nothing else |
| `SteamPayload.CarriedIsDelivered` | common/src/SteamBroker.cpp:203-214 | A message carrying a payload behind its header is handed on as that payload, with nothing else changed |
| `SteamPayload.DeliveredWasCarried` | common/src/SteamBroker.cpp:205-214 | Whatever gameplay message is accepted is its first eight bytes followed by the payload handed on, under the channel and reliability its header names |
| `SteamPayload.TickAdds` | common/src/SteamBroker.cpp:118-224 | A tick without session-end envelopes hands on exactly the payloads of the messages Steam delivers in it, in order |
| `SteamDelivery.ReceivedAsDelivered` | common/src/SteamTransport.cpp:107-123 | Over every allowed run and for each connection, the payloads the application received are a prefix of those Steam delivered; while the connection is open the rest is still in the pipe, in order |
| `SteamDelivery.ToldAfterAll` | common/src/SteamTransport.cpp:107-123 | When the application is told the host has left, it has been handed every payload Steam delivered on that connection |
| `SteamSending.SentAsAsked` | common/src/SteamTransport.cpp:124-130 | Over every allowed run, what Steam accepted on the connection, what is queued behind it and what is on its way to the broker are the payloads the application sent on it, each behind its header, in order; an ending connection takes a prefix |
| `SteamMembers.MembersAreKnown` | common/src/SteamBroker.cpp:72-161 | Over every run, a host's peers are at most two, on its allowlist of valid, distinct identities other than its own; a joiner's only peer is the host it asked for; and every connected peer's own handle was reported authenticated and relayed with no other transport |
| `SteamMembers.AllowlistIff` | common/src/SteamBroker.cpp:72-80 | A Host command of whole identities is accepted exactly when they are valid, distinct and not the broker's own, and then the allowlist is those, in order |
| `SteamMembers.TakenOnIff` | common/src/SteamBroker.cpp:127-148 | A status takes on a peer that was not there exactly when it calls the host's own listener, is on the allowlist, authenticated, free of other transports and accepted, and fewer than two are there |
| `SteamMembers.ConnectedIff` | common/src/SteamBroker.cpp:149-152 | A peer becomes connected exactly by a status of its own handle that Steam vouches for, and one Steam does not vouch for fails the broker |
| `SteamMembers.AliveIff` | common/src/SteamBroker.cpp:118-125 | A tick goes on exactly while callbacks are healthy and, before the first Hello, five seconds have not passed, or, after it, the session is the same and a command came in the last five seconds |
| `SteamMembers.SameSessionIff` | common/src/SteamBroker.cpp:50-71 | A command other than Hello is refused as another session's exactly when the identity, asked for again once a second has passed, is not the one given |
| `SteamMembers.UnconnectedIff` | common/src/SteamBroker.cpp:162-165 | A peer that does not connect is retired after thirty seconds, and not before |
| `SteamMembers.DrainedIff` | common/src/SteamBroker.cpp:179-197 | A draining peer leaves exactly when what was queued and, of a host, the end envelope is delivered, or after two seconds, under the reason it was closed for |
| `SteamEndings.TimelyIff` | common/src/SteamBroker.cpp:81-117 | In any state of such a run, serving the front command keeps the invariant if and only if a host-left Close finds its connection there and a Join finds none draining, or the broker fails on its own |
| `SteamEndings.JoinRefusedIff` | common/src/SteamBroker.cpp:81-89 | In any state of such a run a Join is refused as bad exactly when a host-left Close is still draining and the identity is current |
| `SteamEndings.PlainRejoinIsSafe` | common/src/SteamTransport.cpp:84-141 | Without host-left closes nothing need be timely: rejoining is safe on every run |
| `SteamEndings.EndReportedOnce` | common/src/SteamBroker.cpp:206-212 | The session-end envelope is reported once, however often it comes, and the connection stays |
| `SteamEndings.EndedLeaves` | common/src/SteamBroker.cpp:90-221 | Whichever way the broker then lets the connection go, by status, command, refused send, drain or remote close, it reports a second Disconnected, except by a remote close, drained or timed out |
| `SteamEndings.EndedStreamIff` | common/src/SteamBroker.cpp:90-221 | What it adds then fits the stream of frames, read as one that connection had left, if and only if it left by such a remote close |
| `SteamEndings.EndedStatusIff` | common/src/SteamBroker.cpp:152-160 | A terminal status lets an ended connection go at once exactly when it is not a host-left one and none came before |
| `SteamEndings.EndedCloseIff` | common/src/SteamBroker.cpp:97-106 | A Close lets it go at once exactly when it is not a host-left one |
| `SteamEndings.EndedJoinRefused` | common/src/SteamBroker.cpp:81-89 | Until it is let go a Join fails the broker |
| `SteamRejoin.DebtHolds` | common/src/SteamTransport.cpp:61 | In any state the run invariant allows, `stale_` is the number of Disconnected receipts still owed and the next service does not fail the hub |
| `SteamRejoin.StepHolds` | common/src/SteamTransport.cpp:95-123 | Every step of the joiner, the pipe or the broker keeps the invariant that ties the application's flags and debt to its place in the stream of frames |
| `SteamRejoinLimits.HostLeftCloseMisdelivers` | common/src/SteamBroker.cpp:91-96 | A run in which a late host-left Close is answered twice and the second Disconnected of connection 1 is delivered under Join 2 |
| `SteamRejoinLimits.SessionEndRefusesRejoin` | common/src/SteamBroker.cpp:206-212 | A run in which the session-end envelope's early Disconnected lets the application rejoin while the broker still holds the peer, and the Join fails the broker |
| `SteamTransport.Joiner.Command` | common/src/SteamTransport.cpp:31 | A command goes to the end of the queue, or a dead or full hub fails |
| `SteamTransport.Joiner.Terminate` | common/src/SteamTransport.cpp:63-68 | Ending the attachment closes every peer, clears the queue and kills the hub |
| `SteamTransport.Joiner.ConnectTo` | common/src/SteamTransport.cpp:84-90 | Connecting is resolved exactly when a Join was queued; the peer is then not closed |
| `SteamTransport.Joiner.CloseOne` | common/src/SteamTransport.cpp:131-141 | One Close and one debt for a peer not yet closed, nothing for a closed one |
| `SteamTransport.Joiner.CloseEverything` | common/src/SteamTransport.cpp:95-106 | Closing closes the live peer, owes its answer, and keeps the frames already queued |
| `SteamTransport.Joiner.DeliverFrame` | common/src/SteamTransport.cpp:118-122 | What one frame does to the flags and which event the application sees, the failing case included |
| `SteamTransport.Joiner.DrainQueue` | common/src/SteamTransport.cpp:110-117 | The loop drops the old connection's frames while debt remains, repaying it at each Disconnected |
| `SteamTransport.Joiner.ServiceQueue` | common/src/SteamTransport.cpp:107-123 | One service call after its pump, with a dead hub reported first |
| `BrokerOrder.RunOrder` | common/src/SteamBroker.cpp:29-30 | Over every run of commands, ticks and pops: output and pending queues never exceed the limit, and for each connection the wires Steam accepted followed by the pending ones are the accepted Send commands in order, then at most the end envelope |
| `BrokerOrder.DeliveredEndIsLast` | common/src/SteamBroker.cpp:179-197 | When a host-left drain is reported delivered, every accepted Send was sent, in order, and the end envelope exactly once, after all of them |
| `BrokerStream.CommandStreams` | common/src/SteamBroker.cpp:90-117 | A command only appends frames of the current connection, in stream order, or fails for a reason outside the runtime's commands |
| `BrokerStream.TickStreams` | common/src/SteamBroker.cpp:118-224 | So does a tick without session-end envelopes |
| `BrokerObject.Broker.CloseOwned` | common/src/SteamBroker.cpp:36-41 | Stopping closes every peer and the listener and forgets target, allowlist and admissions |
| `BrokerObject.Broker.Abandon` | common/src/SteamBroker.cpp:30 | Failing stops everything and leaves one Error frame |
| `BrokerObject.Broker.Report` | common/src/SteamBroker.cpp:29 | A frame is queued, or the full queue fails the broker |
| `BrokerObject.Broker.Remove` | common/src/SteamBroker.cpp:45-49 | Retiring a present peer closes it and reports one Disconnected; an absent one changes nothing |
| `BrokerObject.Broker.CheckIdentity` | common/src/SteamBroker.cpp:50-54 | The identity is asked for again once a second has passed, and time may not run backwards |
| `BrokerObject.Broker.ReadAllowlist` | common/src/SteamBroker.cpp:76 | The loop accepts exactly lists of valid, distinct identities other than the broker's own |
| `BrokerObject.Broker.OnHost` | common/src/SteamBroker.cpp:72-80 | The Host command with every refusal |
| `BrokerObject.Broker.OnJoin` | common/src/SteamBroker.cpp:81-89 | The Join command: first join, rejoin of the same host, and every refusal |
| `BrokerObject.Broker.OnSend` | common/src/SteamBroker.cpp:108-117 | A send goes straight out only past an empty queue; congestion queues it; a full queue or a refusal retires the peer |
| `BrokerObject.Broker.OnPeer` | common/src/SteamBroker.cpp:90-107 | Close and Send of a present or absent peer, with the host-left drain |
| `BrokerObject.Broker.OnHello` | common/src/SteamBroker.cpp:64-68 | The Hello command |
| `BrokerObject.Broker.OnCommand` | common/src/SteamBroker.cpp:61-71 | One command is the command function of the state before it, and keeps the order of sends and the queue limits |
| `BrokerObject.Broker.OnStatus` | common/src/SteamBroker.cpp:127-152 | One status callback: incoming refusal or acceptance, connection, or a late callback ignored |
| `BrokerObject.Broker.OnTerminalStatus` | common/src/SteamBroker.cpp:152-160 | A terminal status retains a connected peer until its messages drain, and drops any other |
| `BrokerObject.Broker.OnStatuses` | common/src/SteamBroker.cpp:126-161 | At most 64 callbacks, while there is output room |
| `BrokerObject.Broker.Flush` | common/src/SteamBroker.cpp:166-178 | At most 16 queued sends, stopping at congestion, dropping the peer at a refusal |
| `BrokerObject.Broker.SendEnd` | common/src/SteamBroker.cpp:180-184 | The end envelope is tried once the queue is empty, and only by a host |
| `BrokerObject.Broker.Drain` | common/src/SteamBroker.cpp:179-197 | A closing peer is dropped when delivered or when the drain's time is over |
| `BrokerObject.Broker.Sample` | common/src/SteamBroker.cpp:198-199 | Quality is reported once a second while there is output room |
| `BrokerObject.Broker.OnMessage` | common/src/SteamBroker.cpp:205-214 | One received envelope: refused, a session end, or gameplay data, whose payload `SteamPayload` pins |
| `BrokerObject.Broker.Receive` | common/src/SteamBroker.cpp:203-215 | At most 16 messages while there is output room, and whether the inbox was found empty |
| `BrokerObject.Broker.FinishRemote` | common/src/SteamBroker.cpp:216-221 | A remotely closed peer is dropped once drained or timed out, and reported once |
| `BrokerObject.Broker.ServicePeers` | common/src/SteamBroker.cpp:162-222 | The peers in order of identity, each erased without disturbing the others |
| `Common.AscendingOrder` | common/src/SteamBroker.cpp:162-163 | The order in which the model visits peers is that of the source's ordered map |
| `BrokerObject.Broker.OnTick` | common/src/SteamBroker.cpp:118-224 | One tick is the tick function of the state before it, and keeps the order of sends and the queue limits |
| `SteamFrame.DecodeEncode` | common/src/SteamBroker.cpp:19-28 | Every frame comes back unchanged, and only under its own sequence number |
| `SteamFrame.EncodeDecode` | common/src/SteamBroker.cpp:25-28 | Bytes the decoder accepts are exactly the encoding of what it returns |
| `WireLayout.FrameLayout` | common/src/SteamBroker.cpp:19-24 | Where each field of a pipe frame stands, with the operation codes |
| `WireLayout.ByteOfPut` | common/include/kh2coop/ByteBuffer.hpp:56-61 | Byte i of a written value is the value shifted down by i bytes, modulo 256 |
| `Bytes.ByteWriter.WriteLittleEndian` | common/include/kh2coop/ByteBuffer.hpp:56-61 | The loop appends the value's bytes, least significant first |
| `Bytes.ByteReader.ReadLittleEndian` | common/include/kh2coop/ByteBuffer.hpp:118-133 | The loop reads the value of the next bytes and moves past them, or refuses and does not move |
| `Bytes.GetPut` | common/include/kh2coop/ByteBuffer.hpp:56-61 | A value within its width reads back as itself |
| `Bytes.PutGet` | common/include/kh2coop/ByteBuffer.hpp:118-127 | Bytes are the encoding of the value they read as |
| `Sha256.Digest` | common/src/Codec.cpp:374-412 | For every message under 2^61 bytes the digest is that of the explicitly padded message (sections 5.1.1, 5.2.1 and 6.2.2 of FIPS 180-4); its constants and functions are the standard's by `Sha256Constants` and `Sha256Meaning` |
| `Sha256Constants.KIsCubeRoots` | common/src/Codec.cpp:375-383 | For each t < 64 the constant is the first 32 bits of the fraction of the cube root of the t-th prime (section 4.2.2 of FIPS 180-4) |
| `Sha256Constants.InitialIsSquareRoots` | common/src/Codec.cpp:384 | The initial value is the first 32 bits of the fractions of the square roots of the first eight primes (section 5.3.3 of FIPS 180-4) |
| `Sha256Constants.PrimesAreFirst` | common/src/Codec.cpp:375-383 | The 64 numbers used are the first 64 primes, all of them and in order |
| `Sha256Meaning.RoundsAreSequences` | common/src/Codec.cpp:401-407 | After t rounds the eight variables are the last four terms of each of two sequences, given by one recurrence each |
| `Sha256Meaning.RotateBit` | common/src/Codec.cpp:397-404 | Bit i of a rotated word is bit i+n of the word, around |
| `Sha256Meaning.BigSigmaBits` | common/src/Codec.cpp:402-404 | Each bit of the two round sums is the parity of three bits of the word |
| `Sha256Meaning.SmallSigmaBits` | common/src/Codec.cpp:397-400 | Each bit of the two schedule sums is the parity of two rotated bits and a shifted one |
| `Sha256Meaning.ChooseBit` | common/src/Codec.cpp:402-404 | The choice takes each bit from one word or the other |
| `Sha256Meaning.MajorityBit` | common/src/Codec.cpp:402-404 | The majority of three bits |
| `Sha256Meaning.WordIsNumber` | common/src/Codec.cpp:388-396 | A word of a block is the big-endian number of its four bytes |
| `Sha256Meaning.LengthIsNumber` | common/src/Codec.cpp:386-396 | The length field is the big-endian number of bits |
| `Sha256Meaning.OutputWords` | common/src/Codec.cpp:409-410 | The digest is the eight words, each as its big-endian bytes |
| `Sha256.PaddingIsVirtual` | common/src/Codec.cpp:388-396 | The byte chosen at each position is the padded message's; the 0x80 and the length never meet |
| `Sha256.BlocksArePadded` | common/src/Codec.cpp:385 | One or two blocks past the whole ones, exactly as many as the standard's padding makes |
| `Sha256.LeastPadding` | common/src/Codec.cpp:385 | No shorter padding fills a block |
| `Sha256.FillWords` | common/src/Codec.cpp:388-396 | Sixteen big-endian words of a block, one byte at a time |
| `Sha256.Expand` | common/src/Codec.cpp:397-400 | The message schedule |
| `Sha256.CompressInto` | common/src/Codec.cpp:401-407 | One block folded into the eight working words |
| `Sha256.Emit` | common/src/Codec.cpp:409-410 | The digest's bytes |
| `Crc.MakeTable` | common/src/Codec.cpp:423-427 | Each table entry is eight steps of the bitwise checksum |
| `Crc.FeedingFolds` | common/src/Codec.cpp:425 | Feeding bits one at a time is folding the value in first and then stepping |
| `Crc.LookupTakesByte` | common/src/Codec.cpp:439 | One table lookup is eight bitwise steps |
| `Crc.Compute` | common/src/Codec.cpp:438-440 | The table-driven checksum of any range is the bitwise one (annex D of ISO/IEC 15948) |
| `Png.Structure` | common/src/Codec.cpp:419-465 | A byte string is accepted exactly when it is the signature and the serialization of a legal chunk list |
| `Png.Walk` | common/src/Codec.cpp:430-464 | The one-pass loop ends and accepts exactly what the recursive reading of the remaining bytes accepts |
| `Png.ReadChunk` | common/src/Codec.cpp:433-440 | A chunk is read exactly when a whole one with letters for a type and a matching checksum stands there |
| `Png.AcceptsLegal` | common/src/Codec.cpp:441-461 | The loop's flags accept exactly the chunk lists a grammar by position accepts |
| `Png.ContiguousIff` | common/src/Codec.cpp:453-460 | A legal file keeps its image data contiguous exactly when no other chunk follows only empty image data before more of it |
| `Png.GapAccepted` | common/src/Codec.cpp:453-460 | A legal file whose image data is not contiguous |
| `Png.LegalIsLong` | common/src/Codec.cpp:421 | The 45-byte minimum refuses nothing legal |
| `PngMeaning.PolynomialTerms` | common/src/Codec.cpp:425 | The checksum's polynomial is the one of section 5.5 of ISO/IEC 15948, term by term |
| `PngMeaning.FirstAndLast` | common/src/Codec.cpp:419-465 | An accepted file begins with the signature and a 13-byte IHDR chunk and ends with an empty IEND chunk under its own checksum |
| `PngMeaning.LegalDepthIff` | common/src/Codec.cpp:444-448 | The allowed pairs of colour type and bit depth, by what they stand for |
| `PngMeaning.KindsAreNames` | common/src/Codec.cpp:419-465 | The chunk types the walk tells apart are the letters of their names |
| `SnapshotCodec.ReadWritten` | common/src/Codec.cpp:320-356 | Every snapshot that can be written reads back as itself, with either optional trailer or none |
| `SnapshotCodec.WrittenRead` | common/src/Codec.cpp:334-356 | Accepted bytes are exactly what writing the result would produce |
| `SnapshotCodec.RunningTotalIsSize` | common/src/Codec.cpp:209-233 | The running total is refused exactly when the encoding would be too long, and otherwise is its length |
| `SnapshotCodec.WrittenFits` | common/src/Codec.cpp:332 | The writer's last size check never fails on a valid snapshot |
| `SnapshotCodec.GetPutTrailer` | common/src/Codec.cpp:330-331 | Either trailer, or none, is recovered from its size alone |
| `SnapshotCodec.PutGetTrailer` | common/src/Codec.cpp:353-355 | Trailing bytes that are accepted are some trailer's encoding |
| `SnapshotCodec.ProgressIsSmall` | common/src/Codec.cpp:51-56 | Valid progress always fits the reader's bounds on spans and their lengths |
| `SnapshotCodec.GetPutDefinition` | common/src/Codec.cpp:63-84 | A record definition reads back as itself |
| `SnapshotCodec.PutGetDefinition` | common/src/Codec.cpp:72-84 | An accepted definition is its encoding, its record count the header's |
| `SnapshotCodec.GetPutEnemy` | common/src/Codec.cpp:57-62 | An enemy row reads back as itself |
| `SnapshotCodec.PutGetEnemy` | common/src/Codec.cpp:62 | An accepted row is its encoding |
| `WireLayout.FrontLayout` | common/src/Codec.cpp:322-324 | The fields before the spans, their widths and order |
| `WireLayout.RowsLayout` | common/src/Codec.cpp:323-324 | The HP sequence and the enemy rows |
| `WireLayout.EnemyLayout` | common/src/Codec.cpp:57-62 | The fields of an enemy row, their widths and order, negative HP in two's complement |
| `WireLayout.FooterLayout` | common/src/Codec.cpp:325-327 | The counts and frames after the rows |
| `WireLayout.DefinitionLayout` | common/src/Codec.cpp:63-71 | A record definition begins with its layout digest, location and group key |
| `SnapshotMeaning.ProgressIff` | common/src/Codec.cpp:51-56 | Progress is valid exactly when it is marked full, its spans are sound and overlap nowhere, and every shared byte of the save is in one of them |
| `SnapshotMeaning.PermittedIff` | common/include/kh2coop/ProgressAllowList.hpp:37-44 | A byte is permitted exactly where it is shared, without the first chest bit and the last four |
| `SnapshotMeaning.SharedBytes` | common/include/kh2coop/ProgressAllowList.hpp:22-44 | The ranges of the allow list are the offsets whose mask is not zero, and their lengths add up to its size |
| `SnapshotIo.Write` | common/src/Codec.cpp:320-333 | Writing succeeds exactly on a valid snapshot with its own fingerprint, appends the encoding, and otherwise appends nothing |
| `SnapshotIo.WriteTrailer` | common/src/Codec.cpp:330-331 | The trailers are appended when present |
| `SnapshotIo.WriteDefinitions` | common/src/Codec.cpp:328-329 | The loop appends every definition in order |
| `SnapshotIo.Read` | common/src/Codec.cpp:334-356 | Reading returns the decoding of the bytes, with every bound checked before its loop |
| `SnapshotIo.ReadSpans` | common/src/Codec.cpp:339 | The span loop reads a list of spans or refuses |
| `SnapshotIo.ReadDefinitions` | common/src/Codec.cpp:345-352 | The definition loop reads a list of definitions or refuses |
| `SnapshotIo.ReadTrailer` | common/src/Codec.cpp:353-355 | The trailer is chosen by the bytes left |
| `Fingerprint.SameStateSameBytes` | common/src/Codec.cpp:284-319 | Permuting the record table and renaming its references, splitting progress another way and changing the reviewed header byte leave the hashed bytes unchanged, whichever way each sort breaks ties |
| `Fingerprint.SortedIsUnique` | common/src/Codec.cpp:303 | Two ascending lists of the same encodings are the same list |
| `Fingerprint.SortedTablesAgree` | common/src/Codec.cpp:297-311 | The sorted table does not depend on table order or on the sort |
| `Fingerprint.PlaceIsCanonical` | common/src/Codec.cpp:304-316 | A referenced definition's canonical index does not depend on them either |
| `Fingerprint.EqualProjectionsAreEmpty` | common/src/Codec.cpp:234-239 | Definitions with equal projected encodings hold no records |
| `Fingerprint.ReviewedByteIsInvisible` | common/src/Codec.cpp:68-69 | Header byte 0xE is not hashed |
| `Fingerprint.SplitIsInvisible` | common/src/Codec.cpp:51-56 | Two valid splits hash the same progress exactly when they map the same offsets to the same bytes |
| `FingerprintExact.FingerprintIsExact` | common/src/Codec.cpp:284-319 | The hashed bytes of two valid snapshots agree if and only if the snapshots describe the same native state under some renaming of the table |
| `FingerprintExact.SameBytesSameState` | common/src/Codec.cpp:284-319 | From equal hashed bytes a renaming between the two states follows |
| `Transfer.SnapshotDelivered` | common/src/NetworkClient.cpp:89-106 | A written snapshot cut by the sender's loop and delivered in order, with any repeats of parts already taken, comes out of the assembler as itself |
| `Transfer.TransferDelivers` | common/src/Codec.cpp:369-372 | So does any announced byte string that decodes |
| `Transfer.DeliveredInOrder` | common/src/Codec.cpp:371 | After each delivery the assembler holds a prefix of the original, and after the last all of it |
| `Transfer.PartTakenIff` | common/src/Codec.cpp:371 | A part is taken exactly when it fits the header, is aligned and full, and extends the bytes held or repeats them |
| `Transfer.RefusedPartEndsTransfer` | common/src/Codec.cpp:371 | A conflicting, foreign, gapped or misaligned part resets the assembler, and nothing comes out until a new header |
| `Transfer.NothingWithoutBegin` | common/src/Codec.cpp:370-372 | Without a header nothing is ever held or returned |
| `Transfer.RunHeld` | common/src/Codec.cpp:369-372 | Over every run what is held is whole parts of the announced transfer |
| `Transfer.HeldBytesStay` | common/src/Codec.cpp:371 | Bytes once held are never altered while the transfer is open |
| `Transfer.OnlyAnnouncedBytes` | common/src/Codec.cpp:372 | Whatever the inputs, what comes out decodes bytes with the announced length, digest and room |
| `Transfer.SendParts` | common/src/NetworkClient.cpp:96-100 | The loop submits the parts in order until the first refusal |
| `Transfer.ResyncAssembler.Reset` | common/src/Codec.cpp:369 | Everything is forgotten |
| `Transfer.ResyncAssembler.Open` | common/src/Codec.cpp:370 | A header opens a transfer, repeats the open one, or resets |
| `Transfer.ResyncAssembler.Append` | common/src/Codec.cpp:371 | One part, taken or resetting |
| `Transfer.ResyncAssembler.Close` | common/src/Codec.cpp:372 | The end returns the snapshot or nothing, and resets either way |
| `ResyncSafety.PlansIncrease` | common/src/NetworkClient.cpp:1058-1096 | Within one roster the admitted plans strictly increase in request and then phase, through duplicates, conflicts, aborts and results |
| `ResyncSafety.DeadlineOnlyNears` | common/src/NetworkClient.cpp:1082-1086 | While a transaction is open its deadline never moves away |
| `ResyncSafety.NothingAfterDeadline` | common/src/NetworkClient.cpp:759-766 | Over every run, no plan or snapshot is handed out at or after the deadline its transaction opened with, however the clock is read |
| `ResyncSafety.ExpiredEnds` | common/src/NetworkClient.cpp:759-766 | At or after the deadline a resync packet does nothing but end the transaction |
| `ResyncSafety.QuarantineHolds` | common/src/NetworkClient.cpp:775-798 | Over any run until a snapshot is restored or the session, host connection or transport is replaced, a quarantined client stays quarantined, and what it hands out beside ephemeral packets is exactly the ResyncRequest frames that came while it was ready, in order |
| `ResyncSafety.QuarantineStep` | common/src/NetworkClient.cpp:775-798 | The same for one step |
| `ResyncSafety.QuarantineIff` | common/src/NetworkClient.cpp:1040-1043 | For every state and event: a world packet that is not ephemeral reaches the application in quarantine if and only if it is a ResyncRequest frame met by a ready client, or is admitted just before a friend's plan ends |
| `ResyncFence.EndedPlanFences` | common/src/NetworkClient.cpp:116-133 | When a friend's plan ends, unless the session or transport is replaced, the friend is in quarantine afterwards, or the plan converged and the flag is as before |
| `ResyncFence.PlannedFences` | common/src/NetworkClient.cpp:1093 | A friend that is handed a plan is in quarantine |
| `ResyncFence.BeginsIff` | common/src/NetworkClient.cpp:1047-1135 | A step out of quarantine ends in it exactly when it fences a friend, takes up a plan too late, binds a later delivery, or cannot acknowledge |
| `ResyncFence.FencedIsQuarantined` | common/src/NetworkClient.cpp:116-133 | Over every run from a fresh client, a friend that was handed a plan, or whose transaction ended without converging, is in quarantine until a snapshot is restored or the session replaced |
| `ResyncFence.FencedUntilSnapshot` | common/src/NetworkClient.cpp:775-798 | From such a step on nothing but ephemeral packets and request frames is handed out until then |
| `ResyncLimits.RequestReachesQuarantine` | common/src/Codec.cpp:252 | A run from a fresh client into quarantine, where a request frame is handed out |
| `ResyncSafety.RestoredUnderPlan` | common/src/NetworkClient.cpp:1114-1126 | A restored snapshot was completely reassembled under the open plan's key, phase, targets and room, with the announced digest, before the deadline; it sets the floor and lifts the quarantine |
| `ResyncProgress.WholeSnapshotRestores` | common/src/NetworkClient.cpp:1098-1126 | In any state with an open plan, its header, all its parts in order with any repeats, and its end, each before the deadline, restore exactly the snapshot sent, lift the quarantine and set the floor |
| `ResyncProgress.PlannedIff` | common/src/NetworkClient.cpp:1058-1097 | A plan is handed out exactly when it is of the bound session and host, selects this client, is the first of a newer request or the checkpoint of the same one, and its time is not over |
| `ResyncProgress.EnvelopeIff` | common/src/NetworkClient.cpp:776-798 | An envelope is handed out exactly when its sender and receiver are current under their current deliveries and neither floor nor quarantine holds it |
| `ResyncProgress.ResultIff` | common/src/NetworkClient.cpp:1127-1135 | A result ends the open plan exactly when it names its request; unless it converged a friend is then in quarantine |
| `ResyncSerials.TargetsAreReserialized` | common/src/NetworkClient.cpp:1088 | An admitted plan sets exactly its targets' delivery serials |
| `ResyncSerials.BystanderLearns` | common/src/NetworkClient.cpp:1063-1073 | A seat outside the plan raises another slot's serial to the target's, where that names the slot's current connection, and never lowers one or touches its own |
| `ResyncSerials.RosterIff` | common/src/NetworkClient.cpp:612-646 | A roster that fits replaces what was agreed exactly when the session or host connection is another, and restarts a serial exactly when its connection is |
| `ResyncSerials.BoundIff` | common/src/NetworkClient.cpp:1047-1057 | A binding is taken exactly when it is of this session, host, slot and connection and not older; a changed one past the first delivery quarantines |
| `ResyncSerials.PlanTime` | common/src/NetworkClient.cpp:1085-1092 | The first plan of a transaction gives it its time; a later one can only bring it nearer |
| `ResyncSerials.AskOpensIff` | common/src/NetworkClient.cpp:389-406 | A host's request opens a transaction exactly when it is of the bound world, names the room and connections as they are, and the transport takes it |
| `ResyncSafety.FloorIsLatestCut` | common/src/NetworkClient.cpp:793-794 | An enveloped host native packet that gets through was sent past the cut of the latest snapshot |
| `ResyncSafety.LateAbortWindow` | common/src/NetworkClient.cpp:759-797 | An enveloped packet that is not ephemeral is handed out into a quarantine exactly when the second reading of the deadline ends a friend's plan |
| `ResyncLimits.LateAbortHappens` | common/src/NetworkClient.cpp:759-797 | A run from a fresh client, through roster, binding, plan and a whole snapshot, to such a packet |
| `ResyncClient.StepMatches` | common/src/NetworkClient.cpp:1098-1113 | A transfer in progress is always one of the open plan's own phase |
| `ResyncObject.Client.ResetTransport` | common/src/NetworkClient.cpp:520-522 | A transport reset clears transaction, binding, quarantine, floor and delivery serials |
| `ResyncObject.Client.AbortResync` | common/src/NetworkClient.cpp:116-133 | An abort ends the request or the plan; on a friend it quarantines |
| `ResyncObject.Client.CheckDeadline` | common/src/NetworkClient.cpp:759-761 | The deadline check aborts exactly when a transaction is open and its time is over |
| `ResyncObject.Client.UpdateRoster` | common/src/NetworkClient.cpp:591-647 | A roster replaces the session on another host or session id, and restarts the delivery serial of each changed connection |
| `ResyncObject.Client.OnBinding` | common/src/NetworkClient.cpp:1047-1057 | A binding is admitted unless it is foreign or older; a changed one past the first quarantines |
| `ResyncObject.Client.OnPlan` | common/src/NetworkClient.cpp:1058-1097 | A plan packet: bystander, stale, conflicting, repeated or admitted |
| `ResyncObject.Client.MeetPlan` | common/src/NetworkClient.cpp:1076-1084 | Against an open plan only a later phase of the identical request is admitted |
| `ResyncObject.Client.Admit` | common/src/NetworkClient.cpp:1085-1093 | What an admitted plan sets |
| `ResyncObject.Client.RaiseSerials` | common/src/NetworkClient.cpp:1067-1072 | A bystander only raises serials of the targets' current connections |
| `ResyncObject.Client.OnBegin` | common/src/NetworkClient.cpp:1098-1107 | The snapshot header of the open plan's phase, immutable once completed |
| `ResyncObject.Client.OnPart` | common/src/NetworkClient.cpp:1108-1113 | A part of it |
| `ResyncObject.Client.OnEnd` | common/src/NetworkClient.cpp:1114-1126 | Its end: restored, refused or too late |
| `ResyncObject.Client.OnResult` | common/src/NetworkClient.cpp:1127-1135 | A result closes the transaction it names, and a failed one leaves a friend in quarantine (`ResyncFence`) |
| `ResyncObject.Client.OnEnvelope` | common/src/NetworkClient.cpp:776-798 | Which envelopes are admitted and handed out |
| `ResyncObject.Client.SendRequest` | common/src/NetworkClient.cpp:389-406 | The host's first submission opens the transaction if it is accepted |
| `AdmissionRuns.RunInvariant` | inject/src/CombatAdmissionNative.hpp:104-184 | Every run of native freezes, clears, calls, loads, requests, services and acknowledgements keeps the invariant behind the theorems below |
| `AdmissionSafety.DecidedOnce` | inject/src/CombatAdmission.hpp:426-432 | Each lease but a held one is decided exactly once, on the incarnation, challenge and seats it was opened with |
| `AdmissionSafety.AdmissionIsSound` | inject/src/CombatAdmission.hpp:314-329 | Over every run all-arrived means every seat connected at deferral acknowledged with that challenge, published epoch, connection and delivery, and is still held by its connection and delivery in the session the decision was made in |
| `AdmissionProgress.ServiceDecides` | inject/src/CombatAdmission.hpp:399-425 | Over every run, told from the openings, publications and accepted acknowledgements: a service gives a held lease each outcome exactly when the run calls for it, all-arrived included |
| `AdmissionProgress.DecidesOne` | inject/src/CombatAdmission.hpp:399-425 | No two outcomes are called for at once |
| `AdmissionProgress.ReleaseIff` | inject/src/CombatAdmission.hpp:344-369 | A service releases at once exactly when the lease is or has been decided, in a readable view of its own load that no event froze, with groups to clear; then it clears those and no others |
| `AdmissionProgress.ArmedIff` | inject/src/CombatAdmission.hpp:203-219 | A request and a load arm the barrier exactly when the request leads from the mansion to the target and the load is the one it asked for |
| `AdmissionProgress.FirstDeferredIff` | inject/src/CombatAdmission.hpp:223-273 | The first call is deferred, and a lease opened under this session, exactly when the barrier is armed for the scene and a friend is seated before the room is published |
| `AdmissionProgress.SecondDeferredIff` | inject/src/CombatAdmission.hpp:274-287 | The second call joins the lease exactly when it comes straight after the first, in its scene |
| `AdmissionProgress.PublishedIff` | inject/src/CombatAdmission.hpp:307-311 | The room's epoch is taken once, for the held lease's own challenge |
| `AdmissionProgress.AcceptedIff` | inject/src/CombatAdmission.hpp:314-329 | Over every run, an acknowledgement is accepted exactly on the terms of the held lease, told from its opening, once for each seat |
| `AdmissionSafety.AdmittedWhileSeated` | inject/src/CombatAdmission.hpp:410-422 | The step that admits sees every required seat held by its own connection and delivery |
| `AdmissionSafety.DeadlineEndsHold` | inject/src/CombatAdmission.hpp:423 | The first service at or after 15 seconds ends the hold, even on an unreadable view |
| `AdmissionSafety.ReplaysStayInLease` | inject/src/CombatAdmissionNative.hpp:104-125 | Over any run the barrier clears bits of its own accord at most once per lease, only of deferred or owned groups, in the lease's own load |
| `AdmissionSafety.StepOwns` | inject/src/CombatAdmissionNative.hpp:141-173 | No step changes the mask beyond what the game did, a fresh lease's freeze and its one release; a group already frozen at deferral is never owned |
| `AdmissionSafety.ServiceTouches` | inject/src/CombatAdmission.hpp:344-369 | A service clears only the lease's held groups, and a lease it releases leaves none of them set |
| `AdmissionSafety.CallDefers` | inject/src/CombatAdmission.hpp:223-287 | A deferred call clears nothing and freezes only ownable groups that were clear |
| `AdmissionSafety.RetirementClearsNothing` | inject/src/CombatAdmission.hpp:438-443 | A lease that retires clears nothing |
| `AdmissionOwnership.RefrozenGroupIsCleared` | inject/src/CombatAdmission.hpp:365-368 | Over every run, a release clears an owned group whose bit is no longer the one the lease set if and only if the game cleared the group and froze it again between the freeze and the release |
| `AdmissionOwnership.WatchedFollows` | inject/src/CombatAdmissionNative.hpp:104-173 | Along every run the bits the lease set and nobody cleared since are those the writes since its freeze leave, and the mask is what they make it |
| `AdmissionOwnership.RefreezeHappens` | inject/src/CombatAdmissionNative.hpp:104-173 | A run from the start in which the release clears a bit that is the game's |
| `Admission.Machine.Requested` | inject/src/CombatAdmission.hpp:203-206 | Only the one reviewed destination arms |
| `Admission.Machine.Loaded` | inject/src/CombatAdmission.hpp:210-219 | A load binds its own request and retires an older lease |
| `Admission.Machine.Unfreezing` | inject/src/CombatAdmission.hpp:223-273 | When the two calls are deferred, and the lease the first opens |
| `Admission.Machine.Acknowledge` | inject/src/CombatAdmission.hpp:314-329 | An acknowledgement is accepted under exactly the lease's terms, once per seat |
| `Admission.Machine.Serve` | inject/src/CombatAdmission.hpp:344-369 | Decide, then wait, retire or release; `AdmissionProgress` says exactly which |
| `Admission.Machine.Replayed` | inject/src/CombatAdmission.hpp:371-376 | The release is noted once |
| `Admission.Machine.Conclude` | inject/src/CombatAdmission.hpp:427-432 | The first outcome stays |
| `Admission.Machine.Abandon` | inject/src/CombatAdmission.hpp:438-443 | Retirement ends the lease without a release |
| `CausalSoundness.PublishedIsExplained` | inject/src/CombatCausalTrace.hpp:388-393 | In every unretired run each target's published less expected HP is the sum of losses recorded since its last qualified publication, and the causes it holds are those |
| `CausalLaw.ChangesAreExplained` | inject/src/CombatCausalTrace.hpp:388-393 | Over every run that has not retired, the HP changes reported of an enemy are exactly its causes on record, in order, and lead without a gap from the HP it was admitted at to the HP expected |
| `CausalLaw.DamageIff` | inject/src/CombatCausalTrace.hpp:528-547 | A damaging hit on a tracked actor is recorded as a cause exactly when it is supported, in scope and continues the target's HP; every other one retires the engine |
| `CausalLaw.WriteIff` | inject/src/CombatCausalTrace.hpp:569-584 | A host write is recorded as a cause exactly when it was performed for a newer claim on a live target and continues its HP; every other one retires the engine |
| `CausalLaw.StrayWriteRetires` | inject/src/CombatCausalTrace.hpp:569-584 | A host write for no live target retires the engine |
| `CausalLaw.DeathIff` | inject/src/CombatCausalTrace.hpp:616-622 | A death is recorded exactly when it was sent, once, for a live target whose last cause took its HP to zero; every other one retires the engine |
| `CausalLaw.StrayDeathRetires` | inject/src/CombatCausalTrace.hpp:616-622 | A death of no live target retires the engine |
| `CausalLaw.PublicationIff` | inject/src/CombatCausalTrace.hpp:598-615 | A publication of HP qualifies exactly when its packet went out in scope and names the expected HP, and never retires the engine by itself |
| `CausalLaw.CensusIff` | inject/src/CombatCausalTrace.hpp:508-526 | A census is accepted, and changes nothing, exactly when its rows are distinct live targets at their expected HP and every other live target is a published death |
| `CausalLaw.RepeatedAdmits` | inject/src/CombatCausalTrace.hpp:487-507 | The same five living enemies in two consecutive frames of one scope admit the engine, each at its own HP |
| `CausalMembers.WireIff` | inject/src/CombatCausalTrace.hpp:370-387 | An HP packet is current exactly when it has one to five rows, distinct, each the expected HP of a live target, one of them its own |
| `CausalMembers.BoundBirthIff` | inject/src/CombatCausalTrace.hpp:425-465 | A live member's birth is bound exactly when it is proved for this target at its expected HP and none was bound; said again it changes nothing, and any other retires |
| `CausalMembers.OpenedIff` | inject/src/CombatCausalTrace.hpp:436-465 | A ledger is opened exactly for a proved successor under an id and actor no ledger ever had, while fewer than five are alive |
| `CausalMembers.LeftIff` | inject/src/CombatCausalTrace.hpp:466-477 | A member leaves exactly when its retirement, after its own birth, is proved for this target alive at its expected HP; any other departure retires the engine |
| `CausalSoundness.PublicationsAreExplained` | inject/src/CombatCausalTrace.hpp:598-622 | Every qualified publication lists exactly the causes since the one before it, and gives up their sum |
| `CausalSoundness.DeathOnceAfterCause` | inject/src/CombatCausalTrace.hpp:616-618 | A death is qualified at most once per target, only after a recorded cause reached zero |
| `CausalSoundness.ReceiptsConserved` | inject/src/CombatCausalTrace.hpp:346-350 | Started is drained plus queued plus dropped; serials are popped consecutively; a lost receipt retires the engine |
| `CausalSoundness.CensusMatches` | inject/src/CombatCausalTrace.hpp:508-526 | A census accepted without retirement matches the ledger row by row, and misses only published deaths |
| `CausalSoundness.PacketIsCurrent` | inject/src/CombatCausalTrace.hpp:370-387 | A qualified HP packet names, for every row, what was published before less what has been lost since |
| `CausalSoundness.CauseTestIsRedundant` | inject/src/CombatCausalTrace.hpp:607-608 | Without a cause the expected HP is the published one |
| `CausalSoundness.RunKeeps` | inject/src/CombatCausalTrace.hpp:290-297 | Every run keeps the invariant behind these |
| `CausalEngine.Engine.Push` | inject/src/CombatCausalTrace.hpp:346-350 | The ring takes a receipt at its end, or the receipt is dropped and the engine retires |
| `CausalEngine.Engine.Pop` | inject/src/CombatCausalTrace.hpp:641-643 | The oldest receipt leaves the ring |
| `CausalEngine.Engine.Retire` | inject/src/CombatCausalTrace.hpp:484-486 | Retirement is final and leaves one receipt |
| `CausalEngine.Engine.Current` | inject/src/CombatCausalTrace.hpp:351-354 | Another scope retires |
| `CausalEngine.Engine.TakeCause` | inject/src/CombatCausalTrace.hpp:388-393 | A cause is taken only from the expected HP, downwards, once per event, while there is room |
| `CausalEngine.Engine.Hit` | inject/src/CombatCausalTrace.hpp:528-547 | A hit is a cause or, if it changed HP unexplained, retires; `CausalLaw` says exactly when |
| `CausalEngine.Engine.HostApply` | inject/src/CombatCausalTrace.hpp:569-584 | An applied claim is a cause or retires |
| `CausalEngine.Engine.HpPublish` | inject/src/CombatCausalTrace.hpp:598-622 | A publication of HP, qualified or not |
| `CausalEngine.Engine.DeathPublish` | inject/src/CombatCausalTrace.hpp:616-622 | A publication of a death, which retires when it does not qualify |
| `CausalEngine.Engine.TakeCensus` | inject/src/CombatCausalTrace.hpp:508-526 | The census loops: the first fault, in the order of the rows, retires |
| `Mailbox.AccessIsAtomic` | inject/src/CoopHudMailbox.hpp:22-47 | Under every interleaving each atomic access is one change, or none, of a single visible value |
| `Mailbox.CopyReturnsVisible` | inject/src/CoopHudMailbox.hpp:36-47 | A copy passes its recheck only with the value then visible, the one stored under the newest ticket |
| `MailboxProgress.CopiesAgree` | inject/src/CoopHudMailbox.hpp:36-47 | While nobody writes, every copy begun and finished, interleaved with any number of others in any way, returns exactly what is visible |
| `MailboxProgress.StoreIsVisible` | inject/src/CoopHudMailbox.hpp:22-31 | A store that finds the lock free and the box open and is not disturbed succeeds, and its value is what is visible then |
| `MailboxProgress.StoredIsCopied` | inject/src/CoopHudMailbox.hpp:22-47 | A store and then a copy, neither disturbed: the copy returns the value stored |
| `MailboxProgress.CopyAdvances` | inject/src/CoopHudMailbox.hpp:36-47 | Each of its accesses brings a copy nearer its end, whatever its luck |
| `Mailbox.HiddenStaysHidden` | inject/src/CoopHudMailbox.hpp:23-31 | A value hidden by an invalidation or any newer attempt, even a failed one, is never visible again |
| `Mailbox.RevisionGrows` | inject/src/CoopHudMailbox.hpp:23-31 | The revision only grows |
| `Mailbox.StopIsFinal` | inject/src/CoopHudMailbox.hpp:32-35 | Once stopped, always stopped |
| `Mailbox.NoCopyAfterStop` | inject/src/CoopHudMailbox.hpp:39-44 | No copy that ends after the stop succeeds |
| `Mailbox.RunHolds` | inject/src/CoopHudMailbox.hpp:22-47 | Every interleaving keeps the lock exclusive and the stored ticket no newer than the revision |
| `RecordSelect.SelectPopulation` | inject/src/EnemyRecordBinding.hpp:33-64 | The loops choose exactly the admitted rows, and only when every row is classified, distinct and free of controller aliases |
| `RecordSelect.SelectionKeepsPeers` | inject/src/EnemyRecordBinding.hpp:41-59 | Dropping the excluded host rows loses no admitted row's peer |
| `RecordSelect.SelectionIsExact` | inject/src/EnemyRecordBinding.hpp:33-64 | A complete selection is an exact population if and only if its rows are living and paired |
| `RecordSelect.SelectionIsAdmitted` | inject/src/EnemyRecordBinding.hpp:80-133 | A first observation of a complete selection is admitted exactly when its rows are living and paired and no host row is dead |
| `RecordLease.ExactIsBijection` | inject/src/EnemyRecordBinding.hpp:104-120 | An admitted population is a bijection between local and host rows of equal key and object |
| `RecordLease.AdmittedIsExact` | inject/src/EnemyRecordBinding.hpp:121-132 | Over any run, every two admitted observations of one installation are exact, bind each key alike, and no frame between admitted ones is skipped |
| `RecordProgress.AdmittedIff` | inject/src/EnemyRecordBinding.hpp:80-133 | Over every run, told from what was admitted before: an observation is admitted, with its matched ids, exactly when it is whole and is the first of its load or goes on from the last one, and nothing has poisoned the lease since |
| `RecordProgress.PoisonedIff` | inject/src/EnemyRecordBinding.hpp:79-95 | Over every run, the lease is poisoned exactly when something was admitted since the last renewal and the last event was an interruption or an observation not admitted |
| `RecordLease.BindingIsStable` | inject/src/EnemyRecordBinding.hpp:123-128 | Within one installation a key's roots, local id and host id never change |
| `RecordLease.OneDeathFrame` | inject/src/EnemyRecordBinding.hpp:94-102 | At most one frame of an installation carries a death |
| `RecordLease.PoisonHolds` | inject/src/EnemyRecordBinding.hpp:88-95 | After poisoning nothing is admitted before a newer load and transition |
| `RecordLease.RefusalPoisons` | inject/src/EnemyRecordBinding.hpp:81-84 | Any refusal of an installed lease poisons it |
| `RecordLease.FindPeer` | inject/src/EnemyRecordBinding.hpp:110-119 | The inner scan checks every host row and finds the peer |
| `RecordLease.Match` | inject/src/EnemyRecordBinding.hpp:104-120 | The loops accept exactly the exact populations, with each row's host id |
| `RecordLease.Holder.Observe` | inject/src/EnemyRecordBinding.hpp:80-133 | One observation: renewed, refused, poisoned or admitted |
| `RecordLease.Holder.Hold` | inject/src/EnemyRecordBinding.hpp:79 | An interruption poisons an installed lease |
| `MirrorStream.CursorNeverBackwards` | inject/src/EnemyMirrorState.hpp:54-143 | Over every run of packets and ticks of the stream in one epoch whose newest frame does not cross zero, stale sequences included, the displayed cursor never moves back, and each tick leaves it 1 to 18 frames behind the newest |
| `MirrorStream.RunIsBeats` | inject/src/EnemyMirrorState.hpp:54-63 | A run of the stream moves its clock as the packets it takes and its ticks do |
| `MirrorStream.TickBounds` | inject/src/EnemyMirrorState.hpp:112-135 | After catch-up, hold, snap and clamp the motion runs at most 31 frames ahead of the cursor, and the natural cursor never goes back |
| `MirrorStream.WrapMovesBack` | inject/src/EnemyMirrorState.hpp:60-63 | The next tick moves the cursor back if and only if the packet is newer as a serial and smaller as a number |
| `MirrorStream.WrapHappens` | inject/src/EnemyMirrorState.hpp:60-63 | A run of a new stream in which the cursor moves back |
| `MirrorProgress.SteadySettles` | inject/src/EnemyMirrorState.hpp:112-133 | From any state of the cursor a publisher of three frames every three ticks brings it, in at most as many intervals as it is frames away, to its delay, where it stays |
| `MirrorProgress.SettledPlaysEveryFrame` | inject/src/EnemyMirrorState.hpp:112-133 | Once there, every tick shows exactly the next host frame |
| `MirrorProgress.StallPlaysOn` | inject/src/EnemyMirrorState.hpp:120-138 | A stalled stream shows its newest frame less one while the motion plays a frame a tick, up to thirty past the newest |
| `MirrorProgress.HeardIff` | inject/src/EnemyMirrorState.hpp:60-63 | A packet moves the clock exactly when it is ahead of the newest frame by less than half the range of serials |
| `MirrorProgress.PacketTakenIff` | inject/src/EnemyMirrorState.hpp:54-64 | A packet is taken exactly when its numbers are not zero and, in the epoch that is open, its sequence is past the last; another epoch starts the stream over |
| `MirrorProgress.EntriesReach` | inject/src/EnemyMirrorState.hpp:65-96 | Each entry of a packet reaches its own track, once, whatever the others are |
| `MirrorProgress.SampleTakenIff` | inject/src/EnemyMirrorState.hpp:80-89 | A sample enters the ring exactly when it is the first or ahead, by serial, of the newest there |
| `MirrorProgress.TwoSamplesRetake` | inject/src/EnemyMirrorState.hpp:86-96 | Two samples taken within thirty local frames of each other make a track drivable, however it was released before |
| `MirrorProgress.DrivenIff` | inject/src/EnemyMirrorState.hpp:140-150 | A drivable track stays drivable over a tick exactly while it was heard from in the last thirty local frames |
| `MirrorStream.StoreAppends` | inject/src/EnemyMirrorState.hpp:87-89 | The newest sample is appended and the oldest leaves a full ring |
| `MirrorStream.TakeKeepsOrder` | inject/src/EnemyMirrorState.hpp:80-89 | A sample not newer than the last is refused, so the ring keeps rising |
| `MirrorStream.RingsRise` | inject/src/EnemyMirrorState.hpp:65-96 | Over every run of one epoch each ring, oldest to newest, is strictly increasing in host frame |
| `MirrorStream.TakeKeepsCredit` | inject/src/EnemyMirrorState.hpp:86-95 | Recovery credit counts arrivals since the last gap |
| `MirrorStream.DrivableIsFresh` | inject/src/EnemyMirrorState.hpp:145-150 | A drivable track took at least two samples since its last release with no gap over 30 local frames |
| `MirrorStream.PoseAt` | inject/src/EnemyMirrorState.hpp:153-193 | The scan finds the two samples around the cursor, or holds the first or last one |
| `MirrorPose.PoseIsExact` | inject/src/EnemyMirrorState.hpp:160-193 | The pose is taken from the newest sample not after the cursor: held there, or on the straight lines to the next sample in place and motion time and by the shortest turn in rotation |
| `MirrorPose.UniformIsExact` | inject/src/EnemyMirrorState.hpp:153-193 | Of an enemy that moves uniformly and plays one motion the pose is where it was at the cursor, or at the newest sample when that is behind, and its motion is at the unheld cursor, stalled or not |
| `MirrorPose.WrapKeeps` | inject/src/EnemyMirrorPose.hpp:174-178 | Wrapping an angle keeps its direction and leaves at most half a turn |
| `MirrorStream.BetweenBrackets` | inject/src/EnemyMirrorState.hpp:180-192 | Between two samples the weight is in [0,1) and the pose stays in the segment |
| `MirrorStream.LerpWithin` | inject/src/EnemyMirrorState.hpp:182-184 | An interpolation stays between its ends |
| `MirrorStream.Buffer.TakeOne` | inject/src/EnemyMirrorState.hpp:65-96 | One entry of a packet |
| `MirrorStream.Buffer.TakePacket` | inject/src/EnemyMirrorState.hpp:54-99 | One packet: refused, resetting the epoch, or taken entry by entry |
| `MirrorStream.Buffer.Advance` | inject/src/EnemyMirrorState.hpp:106-143 | One tick: the cursor, then every track's expiry |
| `EventHold.HoldPressesBounded` | inject/src/EventHoldInputState.hpp:82-149 | One hold presses at most 26 times, whatever the samples |
| `EventHold.PressThenRelease` | inject/src/EventHoldInputState.hpp:86-109 | Two presses are never in consecutive samples |
| `EventHold.UnwindDiscipline` | inject/src/EventHoldInputState.hpp:110-129 | A closing press comes 400 ms after the last, while the menu is open, and Cross only after Circle and Start |
| `EventHold.UnwindIff` | inject/src/EventHoldInputState.hpp:110-129 | An unwinding press is made exactly when one is due, and the hold is stuck exactly when one is due after 24; they go round Circle, Start, Cross |
| `EventHold.ReleasedIff` | inject/src/EventHoldInputState.hpp:130-145 | Control is handed back exactly when the menu is closed and the player followed, the owner released it in two samples, or ten seconds have passed |
| `EventHold.HoldCompletes` | inject/src/EventHoldInputState.hpp:82-149 | A hold of a sound game opens the pause, keeps it, closes it on waking and hands control back |
| `EventHold.ReleasedWhenClosed` | inject/src/EventHoldInputState.hpp:130-145 | Control is handed back only with the menu closed |
| `EventHold.OrphanDiscipline` | inject/src/EventHoldInputState.hpp:192-212 | An orphaned pause is pressed at most 25 times |
| `EventHold.OrphanPressMeans` | inject/src/EventHoldInputState.hpp:192-212 | Each press needs a fresh sample of the same menu, event and context, and is followed by a neutral one |
| `EventHold.InputState.TryAcquire` | inject/src/EventHoldInputState.hpp:52-63 | A hold starts only from a safe closed state, and a refusal changes nothing |
| `EventHold.InputState.Break` | inject/src/EventHoldInputState.hpp:77-81 | A failure remembers the pause it left open |
| `EventHold.InputState.OnClosing` | inject/src/EventHoldInputState.hpp:110-129 | The close unwind |
| `EventHold.InputState.OnWaiting` | inject/src/EventHoldInputState.hpp:130-145 | Waiting for the owner |
| `EventHold.InputState.OnSample` | inject/src/EventHoldInputState.hpp:82-149 | One sample |
| `CallbackGate.RetireIsSafe` | inject/src/DownedSpectateAdapter.hpp:15-34 | When the drainer retires, and ever after, no reader is inside |
| `CallbackGate.ClosedOnlyEmpties` | inject/src/DownedSpectateAdapter.hpp:15-24 | Once closed the gate lets nobody new in |
| `CallbackGate.InsideNeverRetires` | inject/src/DownedSpectateAdapter.hpp:27-33 | From any state of any run in which it has closed the gate, a drainer called from inside a callback never retires |
| `CallbackGate.LetInIff` | inject/src/DownedSpectateAdapter.hpp:14-20 | A reader that is not disturbed is let in exactly when the gate is open |
| `CallbackGate.RetiresIff` | inject/src/DownedSpectateAdapter.hpp:30-31 | Over every run a waiting drainer retires exactly when no reader is inside |
| `CallbackGate.DrainerRetires` | inject/src/DownedSpectateAdapter.hpp:25-33 | The readers inside have only to leave for a waiting drainer to retire |
| `CallbackGate.RunHolds` | inject/src/DownedSpectateAdapter.hpp:8-25 | Every interleaving keeps the count equal to the readers inside |
| `DownedReturn.ReceiptsSettleOnce` | inject/src/DownedReturn.hpp:123-180 | Over every run each owed return is settled once, in order, or is the one still owed; only its own identity authorizes it, a revoked one falls back to the last room change's rule, and its tries are 30 frames apart |
| `DownedReturn.GrantsAreBounded` | inject/src/DownedReturn.hpp:753-773 | A slot's requests never name one downing four times in a row, and repeats are 90 frames apart |
| `DownedReturn.TriedIff` | inject/src/DownedReturn.hpp:145-163 | Over every run, from the receipt's own life: a frame tries the return exactly when the same downing is known, still down and ready, no room was changed and thirty frames have passed |
| `DownedReturn.SettledIff` | inject/src/DownedReturn.hpp:145-168 | A receipt is settled exactly when a try is not put off, another downing is known, the player is up again, or a changed room's rule can be applied |
| `DownedReturn.GrantedIff` | inject/src/DownedReturn.hpp:753-765 | A request is granted exactly when the last three grants did not all name its downing and ninety frames have passed if the last one did |
| `DownedReturn.Receipt.OweReturn` | inject/src/DownedReturn.hpp:125-131 | When a return is owed |
| `DownedReturn.Receipt.AtTransition` | inject/src/DownedReturn.hpp:139-144 | An owed return is carried with its fallback |
| `DownedReturn.Receipt.OnFrame` | inject/src/DownedReturn.hpp:145-163 | The receipt's decision for a frame |
| `DownedReturn.Receipt.Report` | inject/src/DownedReturn.hpp:164-168 | What an attempt's outcome does |
| `DownedReturn.Receipt.Tick` | inject/src/DownedReturn.hpp:263-267 | The adapter's step |
| `DownedReturn.Latch.TakeSlot` | inject/src/DownedReturn.hpp:755-763 | A slot's request, granted or held back |

## Left out

- `SteamRejoin.RejoinIsSafe`: assumes what `Allowed` says (connects only of a closed peer, a Join or host-left Close served in time, no session-end envelope) and one host per joiner; `SteamEndings` says exactly when the service is in time and what follows an envelope, and `SteamRejoinLimits` shows a run that fails for each.
- The host's side of the composition, local players, the pipe and ENet themselves (a reliable FIFO is assumed), `flush` internals, the text of Error frames, flags and decision diagnostics, memory allocation failures.
- `SteamTransport.Joiner.Command`: the set of terminal receipts a flush waits for is not in the state; a pipe that fails is a step of its own.
- `SnapshotIo.Read`: the running bound on records across definitions is checked as a total after them; the outcome is the same.
- `SnapshotIo.Write`: the source throws where this returns false; an output buffer half written before a throw is not modelled, because validity is checked first.
- The snapshot's room carries only the fields the codec writes; packet-only fields of RoomTransition, the hold's start and the key of a record are not in the wire form.
- Floats are raw 32-bit words with a finiteness test in the codec, and reals in the mirror stream; rounding is not modelled.
- `Fingerprint.SameStateSameBytes`: says which bytes are hashed; that different bytes have different digests is not a property of any digest. The sort is any permutation that orders the encodings.
- `Transfer.SnapshotDelivered`: the digest and the fingerprint are arbitrary functions, so the result does not depend on `Sha256`.
- ResyncClient: re-entrant callbacks, the typed checks of a packet inside an envelope (one yes or no), the checks that make a roster distinct, the conditioner's delay queues, clock and avatar sequence packets (`onClockPong`, `noteAvatarSeq`), and the generation of request ids.
- `ResyncObject.Client.UpdateRoster`: party, revive, avatar and desync fields it also resets are not in the state.
- `AdmissionSafety.ReplaysStayInLease`: a readable view samples the mask at the moment of the step, since every step runs on the game's own thread; wrap-around of the 64-bit incarnation, logging and the shutdown wait are not modelled.
- CausalLedger: the host's role only. A client's claims, receives, applied packets and native-pending targets are left out; the wire form, the lifecycle proof and the hit evidence arrive as yes or no; payload bytes and digests are not stored.
- `Mailbox.AccessIsAtomic`: accesses interleave sequentially, weaker memory orders and wrap-around of the 64-bit revision are not modelled; the freshness of a copy is a given yes or no.
- RecordLease and RecordSelect: the reviewed record and exclusion tables are arbitrary functions; the reason strings are not modelled.
- `MirrorStream.PoseAt`: the statistics counters are not modelled; family permits are a given yes or no.
- `SteamDelivery.ReceivedAsDelivered`: on the runs `Allowed` allows, as for `SteamRejoin.RejoinIsSafe`.
- `SteamSending.SentAsAsked`: on the same runs.
- `MirrorProgress.SteadySettles`: for a publisher that sends every third frame in time and a newest frame that does not cross 2^32.
- `EventHold.InputState.OnSample`: `Wake`, `FollowScene`, `ReleaseReceived` and `Supersede` are single assignments and appear only as events of a run.
- `CallbackGate.RetireIsSafe`: more than 2^31 readers at once would overflow the count into the closed bit.
- DownedReturn: the encounter, mission and teammate trackers, the outage duty, the pending-encounter claims and the decision tables (`HostEndFor`, `CheckClaim`, `SitOutVeilStep` and the like) are read off their branches and would add only easy members.
- The fixed-layout packet codecs, hooks and native memory, logging, real clocks, HUD drawing and projection geometry.
