# Verified model of a peer-to-peer file sharing system

The system shares files between peers. A client cuts a file into pieces, hashes every piece and advertises
the resulting info hash with a tracker. A downloading client asks the tracker for peers, connects to several
of them, asks for the pieces round robin over all connections, checks and writes the pieces in whatever order
they arrive, fetches again what was corrupted, and finally moves the assembled file into place. Two clients
find each other through rendezvous calls on the server, and fall back on a relay there when they cannot
connect directly.

This project models that logic in Dafny and proves what it achieves, and exactly where it falls short.
`dafny verify dfyconfig.toml` checks all of it.

## Structure

| part | modules |
|---|---|
| bytes, numbers and text | `Base`, `Numerals`, `Utf8` |
| wire messages | `Wire` |
| piece arithmetic, part files, the piece store on disk, hashing under short reads, the cache file and the 20-byte key | `Pieces`, `PartFile`, `PartImages`, `PieceStore`, `Chunker`, `FileCache` |
| the download protocol as a transition system, and the object that carries it out | `Swarm`, `FileAssemblers` |
| what is proved about the protocol | `SwarmTokens` (conservation), `SwarmProgress` and `SwarmDeadlock` (exact capacity bound), `SwarmTermination`, `SwarmAssembly` and `SwarmImages` (the file that is built), `SwarmSuccess`, `SwarmCancels` and `SwarmSlots` (which downloads survive, and with which connections), `SwarmRoutes` (where requests go and which steps fail), `SwarmEndings` (how downloads end), `SwarmLimits` (which files are safe) |
| how schedules are found | `SwarmSchedules`, `SwarmJams`, `SwarmPools` |
| one request and its reply as bytes | `Exchange` |
| tracker, rendezvous, hole punch triggers, relay sessions and their lock | `Tracker`, `Handoff`, `HolePunch`, `SessionId`, `TurnRelay`, `TurnLocks` |

The download protocol is a ring of bounded channels: 150 requests per connection, 150 replies, 100 resends.
`send_requests`, `reassemble_loop` and one `recv_data` task per connection pass piece indices round this ring
as tokens. One `Swarm.Event` is what one task does between two suspension points, so runs are exactly the
interleavings. `send_requests` holds the read guard of the shared assembler while it waits for room in a
request queue, and `reassemble_loop` needs the write lock twice to handle one `Cancel`. An out-of-range slot, a
missing connection, a closed queue and a file that already exists end a run in an aborted state, so invariants
range over every run.

The classes (`FileAssembler`, `Disk`, `Reader`, `ConnectionService`, `Rendezvous`, `Triggers`, `TurnService`) update
their fields in place as the program's objects do; each method is proved against the function that specifies
it, and the theorems are about runs of those functions. `FileAssembler.RunSchedule` and `PieceStore.Transfer`
connect whole runs with the code.

`Reaches(cfg, failed, s, t)` says that some run leads from `s` to `t` in which exactly the streams of the connections
listed in `failed` do not open or bring back a `Cancel`; so each reachability result says how many failures it
takes. Deadlocks are not written out step by step: requests are gathered, and answers let loose, until nothing more
can happen, which a potential bounds; counting tokens then shows that the state of rest is a cyclic wait.

## What the proofs found

- **Deadlock from 303 pieces on.** Over any number of connections, a download in which at most `K` streams fail
  can always go on if and only if it has at most 302 pieces, or at most 402 if `K` is 0 (`ProgressIff`). One failed
  stream and some corrupted answers are enough: the sender waits for room with the read guard in hand, that
  connection waits for room in the reply queue, and the reply loop waits for the write lock. Over one or two
  connections no corrupted answer is needed (`ProgressIffFewPeers`). In terms of files, the safe ones have at most
  302 times 64 KiB, or lie between 64 MiB and 302 times 256 KiB, where pieces are longer (`NeverStuckIff`).
- **No failed stream is survived for sure.** With at least as many pieces as connections, which is how the client
  chooses their number (client/src/torrent_client.rs:203), no run with at most `K` failed streams aborts if and only if
  `K` is 0 (`SurvivesIff`). One failure suffices for every number of connections: its `Cancel` removes a slot, and the
  initial loop, which counts with the number of connections it read at the start, comes to a slot that is no longer
  there (`OneFailureAborts`). Without failures no download aborts (`NeverAborts`).
- **The first `Cancel` removes the right connection, a second one need not.** A comment says that the seeder which
  cannot provide the data is removed (client/src/file_assembler.rs:242-244). Every connection none of whose streams
  failed keeps its slot, in all runs with at most `K` failed streams, if and only if `K` is at most 1
  (`KeepsHealthyIff`). The slot index in a `Cancel` is the one the request was sent with; after a removal it names
  another connection, so two failures can take away a healthy one: both of connection 0, or one each of connections 0
  and 1. Each `Cancel` costs a slot in any case (`CancelBudget`).
- **Short payloads are not hashed.** A wrong payload is accepted if and only if it is shorter than a piece and
  not the expected chunk, or is the padded image of a short last chunk (`WronglyAcceptedIff`). What this does to the
  file is exact as well: a finished download has built the seeder's file if and only if the last payload accepted is
  its chunk and every other one is, up to zeros missing at its end (`EndToEndIff`); and all acceptable payloads can
  be the ones accepted (`AcceptableIsBuilt`).
- **The stored hash of a short last chunk** covers the bytes that the previous chunk left in the buffer, or
  zeros if it is the only one (`StaleTail`).
- **An empty file cannot be downloaded.** Without pieces nothing is sent or received, so the download waits for ever
  (`NoPieces`); without connections it crashes at its first request (`NoConnections`).
- **4 GiB is the exact limit.** Offsets are 32-bit products; every piece is read correctly if and only if the
  file is at most 2^32 bytes long (`OffsetsFit`, `ReadsCorrectIff`).
- **`decode` ignores the length prefix** and panics on exactly the short buffers `DecodePanics` names.
- **The cache** gives an info hash back if and only if the file name has no newline and no carriage return at
  its end (`CacheRoundTrip`).
- **Two names promise something else than the code does**, and the code is followed: the flag called `is_new`
  is true for a file that already existed (client/src/file_handler.rs:202-209), and an empty status vector
  counts as complete (client/src/file_handler.rs:32-34).
- **When the tracker needs atomic calls.** With another call between the two map updates of `advertise`, the maps
  represent what both calls mean, unless that call clears the file's list of seeders: the last seeder's `delete_file` or
  `delist_client`, or the `delist_client` of any registered client when an earlier one has left an empty list behind.
  Then a file has a seeder but is not tracked, and the maps represent nothing (`SplitAdvertiseIff`). With another call
  in one of the two gaps of a `delete_file` that has emptied a list, they represent both calls in one order or the
  other, unless that call advertises the file, for another client or in the second gap: then the advertisement is lost,
  or the maps represent nothing (`SplitDeleteIff`).
- **One client that does not read stops the whole relay.** A packet that waits for room keeps the read lock on all
  sessions (server/src/turn.rs:174-175). Once a registration waits for the write lock, no registration of any session
  comes through, and no packet that is not under way already, until the client reads or drops its stream, which the
  ignored send error turns into a dropped packet (server/src/turn.rs:70). Without that, a registration can come
  through if and only if all packets under way fit into their channels (`EntersUnrelievedIff`). And it can come through
  at all if and only if every channel for which too many are under way belongs to a client whose partner has a slot
  (`EntersIff`): a client without a partner is never admitted and cannot read, so it blocks the relay for ever
  (`StallsForEver`), and any session can get there (`StallReached`).

## Assumptions

- Unsigned 32-bit arithmetic wraps, as in a release build; where a debug build would panic instead is exactly
  where `OffsetsFit` fails. `usize` has 64 bits and is not exceeded.
- The read-write lock is fair: a queued writer goes before later readers.
- A download starts without old `.info` and `.part` files, with at least one piece and one connection, and all
  connections have been subscribed before requesting starts.
- A stream that opens brings exactly one reply for the requested index within the read limit: a piece with any
  payload, or a `Cancel`. A connection fails by not opening a stream. `HonestExchange` and `NoSpill` derive this
  reply from the bytes an honest seeder writes.
- SHA-1 is any function from byte strings to 20 bytes. Where collisions matter, the hypothesis `CollisionFree` says so:
  no other full-length payload has the hash of an expected one.
- Files are a map from name to bytes; seeking beyond the end and writing fills the gap with zeros; creating
  an `.info` file and filling it with zeros is one step. How many bytes a read delivers is an arbitrary function.
- Each tracker call is one atomic step. Rendezvous calls are split into their single map operations, sends and
  receives. Relay registrations are not cancelled; a client may drop its stream once it has it. The relay's lock is
  fair too. A triggered call returns at once.
- Strings are sequences of Unicode scalar values.

## Model

| member | source | states |
|---|---|---|
| SwarmTokens.StepInv | client/src/file_assembler.rs:133-274 | Every step of every task keeps the protocol invariant or aborts: one token per unwritten piece, typed messages within the channel capacities, slots that name open connections, a counter that follows the slots except between the two write locks |
| SwarmTokens.InitialInv | client/src/file_assembler.rs:34-66 | The fresh assembler, with all connections subscribed, satisfies the invariant |
| SwarmTokens.RunInv | client/src/file_assembler.rs:114-275 | Over any run the tokens at the start are those at the end plus the indices written in between |
| SwarmTokens.Conservation | client/src/file_assembler.rs:114-275 | In every run that has not aborted, the indices on the ring and the indices written are 0, .., n - 1, each exactly once; nothing is written twice, nothing is lost, and the ring is empty exactly when the receiver has seen the file complete |
| SwarmTokens.TokensAndWritten | client/src/file_assembler.rs:114-275 | The tokens on the ring and the indices written are together as many as there are pieces |
| SwarmTokens.DoneIsEmpty | client/src/file_assembler.rs:234-268 | Under the invariant the receiver has seen completion if and only if no token is left |
| SwarmProgress.BlockedNeedsTokens | client/src/file_assembler.rs:35-88 | A state in which no task can move holds at least 150 + 150 + 3 tokens, 100 more if the receiver waits on the resend queue; no other way to block exists |
| SwarmProgress.SomeoneMoves | client/src/file_assembler.rs:144-174 | With fewer tokens than that, some task or peer can move without a further Cancel |
| SwarmProgress.Progress | client/src/file_assembler.rs:132-262 | With at most 302 pieces and any number of connections, no reachable state that is neither finished nor aborted is stuck |
| SwarmProgress.ProgressWithoutCancels | client/src/file_assembler.rs:132-238 | In runs without failed streams the same holds for up to 402 pieces |
| SwarmDeadlock.DeadlockWithCancel | client/src/file_assembler.rs:144-174 | From 303 pieces on, over any number of connections, a deadlock is reached with one failed stream; over more than two connections some payload must be rejected for every piece |
| SwarmDeadlock.DeadlockWithoutCancel | client/src/file_assembler.rs:172-226 | From 403 pieces on, over any number of connections, a deadlock is reached with no failed stream |
| SwarmDeadlock.ProgressIff | client/src/file_assembler.rs:35-88 | Over any number of connections, no state reachable with at most K failed streams is a deadlock if and only if there are at most 302 pieces, or 402 for K = 0 |
| SwarmDeadlock.ProgressIffFewPeers | client/src/file_assembler.rs:35-88 | Over one or two connections and for K > 0 this holds whatever the hashes are |
| SwarmLimits.CorruptExists | client/src/file_assembler.rs:216-228 | For a genuine info hash without collisions there is a payload that is rejected for every piece |
| SwarmLimits.NeverStuckIff | client/src/file_handler.rs:171-178 | Which file lengths are free of deadlocks, for every number of connections and of failed streams |
| SwarmJams.Flood | client/src/file_assembler.rs:207-262 | Letting answers loose comes to rest, with everything else unchanged |
| SwarmJams.FrozenRest | client/src/file_assembler.rs:144-174 | Where it comes to rest around a connection without room, with enough tokens about, everybody waits for somebody |
| SwarmPools.RestIsJam | client/src/file_assembler.rs:133-176 | Gathering requests over two or more connections ends with the sender waiting, guard in hand, for a full queue |
| SwarmRoutes.RoundRobin | client/src/file_assembler.rs:133-176 | Without failed streams, request number x goes to connection x modulo their number, and the resends begin again with connection 0 |
| SwarmRoutes.ChannelsAreFifo | client/src/file_assembler.rs:35-88 | Every step leaves a queue alone, appends to its end or takes its head; only the target of a send grows |
| SwarmRoutes.ChannelsCarry | client/src/file_assembler.rs:152-255 | What leaves a queue is what its reader then holds, and what its writer held goes to its end |
| SwarmRoutes.WritersFirst | client/src/file_assembler.rs:246-265 | While the receiver waits for the write lock the sender cannot enter again, and the receiver gets it as soon as no send waits |
| SwarmRoutes.AbortsIff | client/src/file_assembler.rs:144-274 | For every step of every task, in any state, exactly when it aborts the download |
| SwarmRoutes.StrangeMessages | client/src/quic_p2p_sender.rs:314-350 | A message that is not a request closes a connection whose stream opened and is skipped by one whose stream failed; one that is not a reply is not sent again |
| SwarmEndings.FinishedTasksStop | client/src/file_assembler.rs:264-268 | When a finished download has come to rest, the sender has stopped, all queues are empty and every connection is closed |
| SwarmEndings.TargetInTheWay | client/src/file_handler.rs:363-366 | With a file of that name in place no run finishes or builds anything |
| SwarmEndings.CanFinishIff | client/src/file_assembler.rs:264-274 | A download of a real file can finish if and only if no file of that name is in place |
| SwarmEndings.NoConnections | client/src/file_assembler.rs:133-146 | Without connections the first request crashes the sender, and nothing else happens |
| SwarmEndings.NoPieces | client/src/file_assembler.rs:132-154 | Without pieces nothing is sent, received or built, and the download waits for ever |
| SwarmTermination.StepCosts | client/src/file_assembler.rs:132-274 | Every step of any task lowers a potential by at least one, but for a corrupted reply, which raises it by at most nine |
| SwarmTermination.RunLength | client/src/file_assembler.rs:132-274 | No run takes more than 10 (n + K) + 16 c + 5 steps for n pieces, K corrupted replies and c connections |
| SwarmTermination.DownloadEnds | client/src/file_assembler.rs:132-274 | Every schedule of a download of at most 302 pieces is bounded, and where it cannot go on it has finished or aborted |
| SwarmAssembly.WronglyAcceptedIff | client/src/file_assembler.rs:216-231 | Which wrong payloads pass the check: exactly those shorter than a piece that are not the chunk, and the padded image of a short last chunk |
| SwarmAssembly.StepClean | client/src/file_assembler.rs:211-238 | Without forged replies every step keeps the part file in agreement with the seeder's file |
| SwarmAssembly.EndToEnd | client/src/file_assembler.rs:207-274 | A finished download has built the seeder's file byte for byte, in any arrival order and after any resends, if no reply was forged |
| SwarmAssembly.DownloadCorrect | client/src/file_assembler.rs:132-275 | With at most 302 pieces every schedule is bounded and, if it does not abort, ends with the seeder's file in place |
| SwarmImages.EndToEndIff | client/src/file_assembler.rs:207-274 | A finished download has built the seeder's file if and only if every accepted payload is the chunk, up to zeros missing at the end of any but the last |
| SwarmImages.AcceptableIsBuilt | client/src/file_assembler.rs:211-238 | For any number of pieces and connections, any choice of acceptable payloads can be what a finished download accepted, and its file is the seeder's exactly if they are right |
| PartImages.WriteImage | client/src/file_handler.rs:386-416 | Writing a payload of any length up to a piece into a free slot keeps the part file the image of the payloads: their bytes, zeros in between, and the end of the furthest one as its size |
| PartImages.ImageIsFileIff | client/src/file_handler.rs:386-416 | A complete image is the file if and only if the payloads are right |
| SwarmAssembly.GenuineIsValid | client/src/file_handler.rs:135-178 | An info hash made from a non-empty file of at most 4 GiB satisfies what the protocol theorems require |
| SwarmCancels.CancelBudget | client/src/file_assembler.rs:239-255 | Whenever the receiver waits for a reply, the Cancels handled and the slots left add up to the connections at the start, the counter equals the slots and is not zero |
| SwarmCancels.OneFailureAborts | client/src/file_assembler.rs:123-146 | With as many pieces as connections or more, one failed stream and one lost slot suffice for an abort, over any number of connections |
| SwarmCancels.SurvivesIff | client/src/file_assembler.rs:114-275 | With as many pieces as connections or more, no run with at most K failed streams aborts if and only if K = 0 |
| SwarmSlots.KeepsHealthyIff | client/src/file_assembler.rs:239-247 | Over two connections or more, and with at least as many pieces, every connection none of whose streams failed keeps its slot until the download is complete, in all runs with at most K failed streams, if and only if K is at most 1; with two pieces over two connections this takes an answer that can be rejected |
| SwarmSlots.OneFailureKeepsHealthy | client/src/file_assembler.rs:239-247 | With at most one failed stream, only the slot of the connection that failed is removed |
| SwarmSuccess.NeverAborts | client/src/file_assembler.rs:114-275 | A run without failed streams never aborts, whatever the number of pieces and of corrupted replies |
| SwarmSuccess.DownloadSucceeds | client/src/file_assembler.rs:114-275 | Up to 402 pieces, every schedule without Cancels and forged replies is bounded and goes on until the seeder's file is in place |
| FileAssemblers.FileAssembler.constructor | client/src/file_assembler.rs:34-92 | Creating the assembler and subscribing every connection gives the initial state |
| FileAssemblers.FileAssembler.HasAllPieces | client/src/file_handler.rs:31-37 | True exactly if every status byte is 1, and so for no status bytes at all |
| FileAssemblers.FileAssembler.RunSchedule | client/src/file_assembler.rs:114-275 | Carrying out any schedule on the object ends in the state of the transition system's run, so all theorems about runs hold of it |
| Exchange.RequestFits | client/src/quic_p2p_sender.rs:205-216 | A message of 41 bytes with the request id is a Request and vice versa; no 41 bytes make the decoder panic |
| Exchange.ReplyArrives | client/src/quic_p2p_sender.rs:314-327 | Exactly which framed replies survive the read limit of length + 9 |
| Exchange.NoSpill | client/src/quic_p2p_sender.rs:322-327 | No bytes a peer can send yield a piece that reaches into a later slot |
| Exchange.HonestExchange | client/src/quic_p2p_sender.rs:205-231 | A seeder that shares the file answers every request on the ring with the right chunk, which is accepted; one that does not answers with the matching Cancel |
| Exchange.ServeOutcome | client/src/quic_p2p_sender.rs:205-231 | What a seeder answers to any request, whatever it shares and whatever has become of its files: the bytes of the piece if they lie inside the file found, else the matching Cancel; a panic only for an info hash that contradicts itself |
| Exchange.MissingPieceIsCancelled | client/src/quic_p2p_sender.rs:220-228 | A Cancel is the answer if and only if the file found ends before the piece does, also for the last piece |
| Exchange.OthersRefused | client/src/quic_p2p_sender.rs:209-216 | 41 bytes end the connection with an error if and only if their id is not that of a request |
| Exchange.ReadReplyOutcome | client/src/quic_p2p_sender.rs:322-325 | A reply is an error if and only if it is too long or no message, and panics only if the decoder does |
| Wire.Encode | client/src/message.rs:35-65 | The field-by-field encoder yields the body behind its own length modulo 2^32 |
| Wire.DecodeFrame | client/src/message.rs:35-101 | Decoding undoes encoding for every message |
| Wire.FrameLayout | client/src/message.rs:35-65 | At which bytes of a frame the length, the id and each field stand |
| Base.BigEndianByte | client/src/message.rs:40-60 | The most significant byte of a number comes first |
| Wire.DecodeReads | client/src/message.rs:68-101 | Which message comes out of a buffer: the one whose body stands behind the prefix, whatever the prefix says |
| Wire.PrefixExact | client/src/message.rs:39-61 | The prefix says how many bytes follow if and only if the payload has at most 2^32 - 6 bytes |
| Wire.PrefixIff | client/src/message.rs:35-65 | One encoding is the beginning of another one only if they are equal, or are two pieces with the same index, the one payload continuing the other by a multiple of 2^32 bytes; and then it is |
| Wire.PrefixFree | client/src/message.rs:35-65 | So no encoding whose prefix is exact is the beginning of another such one |
| Wire.EncodeImage | client/src/message.rs:35-101 | A decodable buffer is re-encoded to itself if and only if it is well framed |
| Wire.DecodeOutcome | client/src/message.rs:68-100 | A buffer of five bytes or more parses if and only if some message with its id has a frame that is no longer, gives no message if and only if no message has its id, and panics otherwise, as four bytes always do |
| Pieces.FewPiecesIff | client/src/file_handler.rs:171-178 | A file has at most a certain number of pieces if and only if it has at most that many times 64 KiB, 256 KiB, 512 KiB or 1 MiB, for files up to 64 MiB, up to 512 MiB, up to 1 GiB, or longer |
| Pieces.PieceLengths | client/src/file_handler.rs:425-429 | The last piece starts inside the file, has between 1 and piece-length bytes, its length never underflows; all others are full |
| Pieces.OffsetsFit | client/src/file_handler.rs:171-178 | With the program's piece lengths every offset of a non-empty file fits 32 bits if and only if the file has at most 2^32 bytes |
| Pieces.ChunksConcat | client/src/file_handler.rs:421-436 | All pieces in index order are the file |
| Pieces.ReadIsChunk | client/src/file_handler.rs:421-436 | Up to 4 GiB reading a piece gives the chunk with that index |
| Pieces.ReadsCorrectIff | client/src/file_handler.rs:425-434 | All reads from all files of a given length are right if and only if the length is at most 2^32 |
| PartFile.SlotsApart | client/src/file_handler.rs:398-399 | Writing one slot leaves what a disjoint slot holds |
| PartFile.PartRefinement | client/src/file_handler.rs:386-416 | After any legal sequence of data and status writes, even one cut between the two, a status byte is 1 exactly if the index was marked, and then the slot holds the last payload written for it |
| PartFile.CompleteIff | client/src/file_handler.rs:381-383 | The download counts as complete if and only if every index has been marked |
| PartFile.LandsRightIff | client/src/file_handler.rs:398-399 | Every piece is written at its own offset if and only if the file has at most 2^32 bytes |
| PartFile.FaithfulWrite | client/src/file_handler.rs:398-414 | Writing and marking a genuine chunk keeps the part file in agreement with the file, after each of the two writes |
| PartFile.FaithfulComplete | client/src/file_handler.rs:381-399 | An agreeing part file with all status bytes set is the file |
| PartFile.Rebuild | client/src/file_handler.rs:386-436 | The pieces of a file written in any order and with any repeats rebuild it |
| PieceStore.Disk.GetTempFile | client/src/file_handler.rs:200-211 | Creates a missing file empty; the flag is true if the file was already there |
| PieceStore.Disk.GetInfoStatus | client/src/file_handler.rs:266-296 | An existing status file is returned byte for byte, a missing one created with one zero per piece |
| PieceStore.Disk.IsFileComplete | client/src/file_handler.rs:381-383 | Complete exactly if all stored status bytes are 1 |
| PieceStore.Disk.WritePieceToPart | client/src/file_handler.rs:386-418 | Data, then status; an index without status byte panics with the data already written; no other file changes |
| PieceStore.Disk.ReadPieceFromFile | client/src/file_handler.rs:421-436 | The piece at the 32-bit offset, an error if the file is too short, a panic if the tail length underflows |
| PieceStore.Disk.BuildFile | client/src/file_handler.rs:352-378 | Moves a complete part file into place and removes the status file, or leaves the exact files it leaves when incomplete or already there |
| PieceStore.Transfer | client/src/file_handler.rs:352-436 | Fetching pieces in any order that covers all indices, with repeats, leaves the leecher's disk with the seeder's file and otherwise unchanged |
| Chunker.Reader.Read | client/src/file_handler.rs:148-152 | A read delivers any positive number of the bytes that come next, none only at the end or for an empty range |
| Chunker.FillBuffer | client/src/file_handler.rs:143-153 | However the reads are split, the buffer holds the next chunk followed by what was behind it before |
| Chunker.GetPieceHashes | client/src/file_handler.rs:135-168 | Exactly ceil(length / piece length) hashes, each over the chunk or, for a short last one, over the chunk and the stale tail, independent of how reads are split |
| Chunker.FullPieceHashed | client/src/file_handler.rs:137-160 | What is hashed is always one piece long, and for a full chunk it is the chunk |
| Chunker.StaleTail | client/src/file_handler.rs:137-160 | What is hashed behind a short last piece: the bytes of the piece before it at the same places, or zeros |
| FileCache.WriteCache | client/src/file_handler.rs:65-75 | The lines written one by one are the cache text |
| FileCache.LoadPieces | client/src/file_handler.rs:114-119 | The loop over the remaining lines decodes all of them or panics at the first that is not hexadecimal |
| FileCache.NameRead | client/src/file_handler.rs:97-100 | For every name, the name read back is the first line of the one written, without a final carriage return |
| FileCache.PrintLayout | client/src/file_handler.rs:65-75 | The keys and the line breaks of the cache text |
| FileCache.ParseOutcome | client/src/file_handler.rs:91-128 | Exactly which texts load, and to what, which are refused with an error, and which panic |
| FileCache.TrimSplits | client/src/file_handler.rs:109-112 | Trimming takes away the spaces in front and behind, and all of them |
| FileCache.CacheRoundTrip | client/src/file_handler.rs:62-128 | The printed info hash is parsed back unchanged if and only if the name has no newline and does not end in a carriage return |
| FileCache.FeedHasher | client/src/file_handler.rs:181-195 | What the hasher is fed is length, piece length, name and hashes without any delimiter |
| FileCache.PreimageLayout | client/src/file_handler.rs:181-195 | At which bytes of the hashed stream the two lengths, the name and the hashes stand |
| FileCache.PreimageInjective | client/src/file_handler.rs:181-195 | Well-formed info hashes feed equal streams if and only if they are equal |
| Utf8.BytesInjective | client/src/file_handler.rs:186-186 | The bytes of a name determine the name |
| Utf8.Examples | client/src/file_handler.rs:186-186 | The bytes of one character of each width |
| Numerals.ParseDecimal | client/src/file_handler.rs:67-106 | A printed number is parsed back, within the bound of its type |
| Numerals.ParseHexOfHex | client/src/file_handler.rs:73-117 | A hexadecimal hash is decoded back |
| Numerals.ParseUnsignedIff | client/src/file_handler.rs:103-106 | Which texts parse to a number below a bound |
| Numerals.ParseHexIff | client/src/file_handler.rs:117-117 | Which texts decode to some bytes: those that spell them with two digits each, in either case |
| SessionId.PeerThen | client/src/turn_fallback.rs:238-242 | A printed peer and what follows it can be told apart, for all addresses and ports |
| SessionId.SmallerFirst | client/src/turn_fallback.rs:250-255 | The smaller peer, by address, port, private address and private port, comes first |
| SessionId.PeerExample | client/src/turn_fallback.rs:238-242 | How a peer with known addresses and ports looks |
| SessionId.SessionIdCanonical | client/src/turn_fallback.rs:250-255 | Two session ids are equal if and only if they belong to the same unordered pair of peers |
| Tracker.StepRepresents | server/src/main.rs:155-373 | Every call changes the maps as it changes who seeds what, who is reachable where and what was advertised last, whatever duplicates and empty lists the maps hold |
| Tracker.RunRepresents | server/src/main.rs:155-373 | After every sequence of calls a hash is tracked if and only if it has a seeder, with the info hash advertised last |
| Tracker.AddressesAre | server/src/main.rs:41-47 | Filtering a seeder list keeps exactly the addresses of registered clients that have one |
| Tracker.PeerListIsRight | server/src/main.rs:35-52 | After every sequence of calls a peer list holds exactly the current addresses of the file's registered seeders |
| Tracker.AddressCount | server/src/main.rs:41-47 | An address is listed as often as the seeder list names a client registered with it |
| Tracker.AddressOrder | server/src/main.rs:41-47 | The addresses come in the order of the list, at most one for each entry |
| Tracker.ListIsHistory | server/src/main.rs:155-373 | After every sequence of calls a seeder list has one entry for each advertisement whose client has not since deleted the file or been delisted, in the order of the advertisements |
| Tracker.CatalogueIsRight | server/src/main.rs:298-314 | And the catalogue holds exactly the last advertised info hashes of files with a seeder |
| Tracker.SplitAdvertiseIff | server/src/main.rs:155-178 | With any other call between its two map updates, an advertisement leaves maps that represent what both calls mean, if and only if that call does not clear the list of the file's seeders; otherwise they represent nothing |
| Tracker.SplitDeleteIff | server/src/main.rs:324-336 | With any other call in either gap of a delete that empties a list, the maps represent both calls in one order or the other if and only if that call does not advertise the file for another client or in the second gap; otherwise the advertisement is lost or the maps represent nothing |
| Tracker.ConnectionService.Register | server/src/main.rs:180-204 | The first id drawn that is not in use is entered with the given address, unless it is empty, which is refused |
| Tracker.ConnectionService.UpdateRegisteredPeerId | server/src/main.rs:209-222 | The address is replaced; missing fields are refused without a change |
| Tracker.ConnectionService.AdvertiseFile | server/src/main.rs:155-178 | The info hash is replaced and the client appended, even if already listed |
| Tracker.ConnectionService.Delete | server/src/main.rs:316-339 | The client leaves the list; an emptied list and the tracked file go with it |
| Tracker.ConnectionService.Delist | server/src/main.rs:341-373 | A registered client leaves all lists; files without seeders are no longer tracked, their empty lists stay |
| Tracker.DelistEverywhere | server/src/main.rs:341-373 | Delisting changes the tracker, and ends the calls that wait for a leecher, for a certificate and for a hole punch under the removed address |
| Tracker.ConnectionService.GetFilePeerList | server/src/main.rs:35-52 | The addresses of a hash's seeders, an empty list for an unknown hash |
| Handoff.StepInv | server/src/main.rs:67-99 | Every map operation, send and receive keeps senders, channels and requests matched one to one |
| Handoff.LinearHandoff | server/src/main.rs:54-103 | In every interleaving a registration is taken by at most one request with its own key, what is received is what that request sent, and the send never waits |
| Handoff.HandoffSteps | server/src/main.rs:54-103 | After every run, what each map operation, send, receive and departure does to every channel and every request, told by the keys alone |
| Handoff.SentIsDelivered | server/src/main.rs:98-102 | A value sent can be received as long as the call listens, once, and then the call has it |
| Handoff.HandoffWorks | server/src/main.rs:54-103 | From a call that waits and a request that looks for it, three steps hand the value over |
| Handoff.FiveAttempts | server/src/main.rs:67-81 | A request gives up after exactly five attempts |
| Handoff.Rendezvous.InsertSender | server/src/main.rs:94-100 | A new channel's sender replaces and thereby ends an older one under the same key |
| Handoff.Rendezvous.TryRemove | server/src/main.rs:67-79 | One attempt: the sender leaves the map, or one of five attempts is used up |
| Handoff.Rendezvous.SendValue | server/src/main.rs:254-263 | The send succeeds, fails because nobody listens any more, or panics on a missing certificate |
| Handoff.Rendezvous.RemoveEntry | server/src/main.rs:349-360 | Delisting a peer ends its waiting call |
| HolePunch.PunchesReach | server/src/main.rs:108-152 | After every run a punch reaches exactly the call that waits under its key, and a removal or another call under the key ends exactly that one |
| HolePunch.CallsComeAndGo | server/src/main.rs:108-122 | A new call waits under its key, and one that leaves before it is triggered is gone |
| HolePunch.Triggers.AwaitHolePunchTrigger | server/src/main.rs:108-122 | A new trigger replaces and thereby ends an older one under the same key |
| HolePunch.Triggers.InitPunch | server/src/main.rs:127-152 | Succeeds exactly if a call waits under the key; the trigger stays in the map |
| TurnRelay.RunExact | server/src/turn.rs:97-188 | After every run the slots are the first claims, a channel is open unless its client has hung up, and has carried exactly the packets addressed to its role |
| TurnRelay.SlotNeverReplaced | server/src/turn.rs:38-58 | A role's slot, once filled, stays with its registration for ever |
| TurnRelay.BothRolesArrived | server/src/turn.rs:109-127 | A registration succeeds only together with its partner in the other slot of the same session |
| TurnRelay.BothAreAdmitted | server/src/turn.rs:122-127 | When the second of the two roles arrives, both are admitted |
| TurnRelay.RelayDelivers | server/src/turn.rs:65-188 | What a client receives and what still waits for it is exactly its kind of packets sent under its session since it registered and until it hung up, in order |
| TurnRelay.RolesGetTheirKind | server/src/turn.rs:65-80 | A seeder gets only requests, a leecher only pieces |
| TurnRelay.ChannelsHold128 | server/src/turn.rs:104-104 | A packet for an open channel has to wait exactly if 128 packets are in it |
| TurnRelay.TurnService.RegisterForSession | server/src/turn.rs:97-124 | Creates the session if needed and fills the slot, or refuses if the role is taken |
| TurnRelay.TurnService.WaitAtBarrier | server/src/turn.rs:122-127 | The second client to arrive lets both through |
| TurnRelay.TurnService.ForwardPacket | server/src/turn.rs:65-188 | Requests go to the seeder, pieces to the leecher of the header's session, anything else nowhere; a packet for a closed channel is dropped |
| TurnLocks.LocksRefine | server/src/turn.rs:97-188 | Every run with the lock on the sessions is a run of the relay, so all that is proved of those holds |
| TurnLocks.EntersInOrder | server/src/turn.rs:106-124 | Registrations enter in the order in which they queued for the lock, and none is lost |
| TurnLocks.PacketsKept | server/src/turn.rs:170-176 | Every packet begun is forwarded once or still under way |
| TurnLocks.EntersUnrelievedIff | server/src/turn.rs:97-188 | A waiting registration can come through without anybody reading or hanging up if and only if all packets under way fit into their channels |
| TurnLocks.EntersIff | server/src/turn.rs:97-188 | It can come through at all if and only if every open channel for which too many packets are under way belongs to a client whose partner has a slot |
| TurnLocks.StallsEverybody | server/src/turn.rs:107-175 | While packets under way do not fit and a registration waits, no registration fills a slot and no further packet of any session is forwarded, until that client reads or hangs up |
| TurnLocks.StallsForEver | server/src/turn.rs:107-175 | If that client has no partner, this is so in every continuation |
| TurnLocks.StallReached | server/src/turn.rs:97-175 | Any session can get into a stall for ever, with any registration waiting |

## Left out

- SwarmDeadlock.DeadlockWithCancel: over more than two connections the deadlock uses a payload that is rejected for every piece; `CorruptExists` gives one for every genuine info hash without collisions.
- SwarmCancels.SurvivesIff: says nothing about more connections than pieces, which the client never opens.
- SwarmSlots.KeepsHealthyIff: likewise.
- SwarmAssembly.EndToEnd: files are at most 4 GiB long, since beyond that reading itself is wrong (`ReadsCorrectIff`).
- FileCache.PreimageInjective: info hashes are well formed; the chunker makes only such ones.
- Exchange.ReplyArrives: what is read is taken as a whole; a stream that breaks off after opening is not modelled.
- Tracker.RunRepresents: calls are atomic; `SplitAdvertiseIff` and `SplitDeleteIff` say what one other call inside `advertise` or `delete_file` does, and a `delist_client` that is split over several lists is not modelled.
- TurnRelay.RelayDelivers: registrations that are cancelled before they succeed are not modelled.
- TurnRelay.TurnService.ForwardPacket: one step, without the lock, which `TurnLocks` adds.
- `FileAssembler` has one method for each stretch of a task between two suspension points; only the constructor, the scan of the status bytes and whole schedules are listed above, the other methods follow the branches of `Swarm.Step`.
- Resumed downloads over an old status file, and stream reads that fail after opening: the token of such a request vanishes in the code, so conservation and progress do not hold there.
- When `start_requesting` wakes the sender: runs begin after it.
- QUIC endpoints, TLS, STUN, hole punching and the order in which connections are attempted.
- Looking up a client by its address; the randomness of drawn ids, which are a list of draws here.
- The relay's client loops (client/src/turn_fallback.rs:26-230), which drop requests and send no Cancels.
- The interactive menu, the remote call plumbing and the scanning and deleting of the client's own files.
- The inside of SHA-1; real file system errors and permissions.
