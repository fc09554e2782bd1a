# A verified model of a small Redis server

The repository is a Redis server in C++ that runs on one thread with an event loop: a RESP codec over
partial reads and writes, commands, streams with blocking reads, and master/replica replication with WAIT.
This project models those parts and proves what they promise, on all inputs and over all runs.

- **Wire format** (`Message`, `Grammar`, `Frames`, `WireRoundTrip`, `Pieces`, `MessageParser`, `ReadBack`, `Delivery`, `Handler`).
  A one-pass grammar is the reference. The program's parser cuts bytes into pieces and parses the queue of
  pieces again and again, putting pieces back on failure; it is proved to compute the grammar, whatever the
  chunks, and printing is inverse to it exactly where the printed message is `Wireable`.
- **Commands** (`Decimal`, `StreamIds`, `Commands`, `CommandRoundTrip`, `CommandForms`). Printing and parsing of numbers,
  stream ids and commands, exactly when one undoes the other, and which words are accepted and as what.
- **Replication** (`Replicas`, `Links`, `Replication`, `WaitTickets`, `WaitSoundness`, `ReplicationTheorems`,
  `WaitTheorems`, `WaitRuns`, `ReplicaMaps`, `ClientCommands`, `Progress`). A master, any number of replicas and clients as a step system with one FIFO each way per
  connection. Steps are SET, WAIT, a message heard by the master or a replica, a timer, a join and a leave,
  in any order. The theorems speak of every state that any run reaches.
- **Replication over bytes** (`Carriage`, `ByteWorlds`, `ByteRefinement`). The same system with two streams of bytes per
  connection, cut anywhere, in which a talker acts on what its parser reads. Every such run is a run of the
  step system, so its theorems hold of bytes.
- **The replication objects** (`StorageMiddleware`, `Talkers`). The program's mutable objects with their loops,
  proved to do what the functions of `Replicas` say.
- **Streams and blocking reads** (`Streams`, `BlockingReads`, `BlockingTheorems`, `Waitlists`, `AllReads`, `RepeatedReads`,
  `Storage`). Id allocation, ranges, XREAD BLOCK as a step system with wait lists, posted jobs and timers, and the
  object that does it.
- **Event loop and Base64** (`EventLoop`, `Rounds`, `Base64`). `Rounds` puts the blocked readers under the loop that
  runs their jobs and timers, with the commands that come between.

One `char` stands for one byte. Integer widths are modelled where they matter: `int` in the decimal
parsers, `std::size_t` in the pending length of the parser and in stream ids, the 32-bit accumulator of
Base64. Some state is history only (what was told, which SETs came since a replica was admitted, what a WAIT
asked); the program's steps do not depend on it.

## Where the code falls short of what it is for

Each of these is stated exactly, for all inputs.

- An empty bulk string is written as `$-1`. The parser hands it out, but takes `-1` for a length and never
  reads again. `ReadBack` and `ReadList` give the exact set of messages that survive.
- An XREAD of several streams is written key, id, key, id and read as keys, then ids. `CommandRoundTripsIff`
  says when it survives: when that order makes no difference. For different streams `XReadFaithful` says it
  shorter.
- An XREAD that blocks without naming a stream is accepted, and never answered (`EmptyReadParses`,
  `EmptyReadIsLost`). `AnsweredOrListed` says it is the only one.
- An XREAD that names a stream twice is accepted like any other (`GroupedReadParses`). If it blocks it joins that
  stream's list twice and leaves it once: an answer takes a reader out of all lists exactly if its keys differ
  (`AnswerLeavesIff`, `ListedOnRuns`). The callback was moved away with the answer, so the next wakeup of the place
  left behind throws, and the job that was to wake others behind it ends there. From then on whoever comes to
  wait on that stream alone is never answered but by its own timer (`LaterReadersStarve`; `RepeatedKeyStarves`
  is a run). No wakeup is lost where every request that blocks has distinct keys (`WakeupsKept`), and those are
  exactly the runs of `BlockingReads` (`PlainIff`).
- A blocked XREAD can be woken for nothing. `WakeGivesIff` says when an XADD gives a waiting reader something,
  `AnswerIsNonEmptyIff` when a later answer holds anything, overflow or not.
- A GETACK counts as pushed bytes that its own answer does not cover, so a replica is up to date only as long
  as nothing was pushed to it (`AckStaysBelow`). Every later WAIT needs a fresh ACK.
- An ACK removes a replica from a WAIT before it is compared. `AckCountsIff` says when the replica is counted:
  exactly if no GETACK to it was unanswered when the WAIT was set up. `SecondWaitLoses` and
  `SecondWaitTimesOut` are a run in which it is not. The count errs only low (`WaitIsSound`).
- A counted replica need not hold the master's SETs. One that is registered but not written to yet counts as
  up to date and has none (`UnwrittenCounts`; `UnwrittenIsCounted` is a run that answers a WAIT so); every other has
  all since the master started to write to it (`CountedHasSets`).
- A SET with an empty key or value, an empty dump or a banner of two lines cannot be carried to a replica;
  `SaidIsReadableIff` says that nothing else stands in the way.
- A read that meets the end of the stream loses the bytes it brought (`EndToEnd`): all messages are heard exactly
  if no such read brings any. `LastIsLost` is the family of runs that lose a message so.
- The last sequence number of a stream wraps around. `AppendsAtEndIff` says when an XADD appends, `ZeroIdIff`
  when it gives 0-0, `OverflowLandsBelow` what happens at the end.
- XRANGE with crossed bounds gives a reversed iterator pair exactly if an entry lies between them (`RangeIff`).

## Model

| member | source | states |
|---|---|---|
| Decimal.ParseIntPrint | src/utils.cpp:51-72 | a printed integer of any size parses back exactly if it fits 32 bits, and is refused otherwise |
| Decimal.ParseUInt64Print | src/utils.cpp:78-99 | a printed natural followed by anything that is no digit parses back exactly if it fits 64 bits |
| Decimal.ParseUInt64Reads | src/utils.cpp:78-99 | every text is read as the number its digits denote, one leading plus sign and whatever follows the digits aside; without digits, or beyond 64 bits, it is refused |
| Decimal.ParseIntReads | src/utils.cpp:51-72 | the same for 32 bits, with a minus sign |
| Decimal.PrintInjective | src/utils.cpp:51-72 | different numbers have different texts |
| StreamIds.StreamIdRoundTrips | src/storage.cpp:67-101 | every pair of 64-bit numbers is read back from its text, which is none of the wildcards |
| StreamIds.InputStreamIdRoundTrips | src/storage.cpp:115-161 | full ids, `ms-*` and `*` are read back |
| StreamIds.BoundStreamIdRoundTrips | src/storage.cpp:167-186 | ids, `-` and `+` are read back |
| StreamIds.ReadStreamIdRoundTrips | src/storage.cpp:192-206 | ids and `$` are read back |
| StreamIds.TimeAlone | src/storage.cpp:67-101 | an id without a dash, in any spelling of its number, is that time with sequence number 0, as an id, a bound and a position |
| StreamIds.TimeIsRead | src/storage.cpp:67-101 | in particular every 64-bit `n` is read as n-0, and `0` as 0-0 |
| StreamIds.BothAreRead | src/storage.cpp:76-101 | an id with a dash is the two numbers before and behind the first one, or is refused; for an XADD `*` may stand behind it |
| StreamIds.AddNeedsBoth | src/storage.cpp:127-141 | an XADD takes no id without a dash but `0` and `*` |
| Messages.ToStringsAppend | src/message.cpp:25-58 | the texts of two lists of messages concatenate |
| Grammar.OneExtends | src/message_parser.cpp:170-184 | a complete or rejected message stays so when more bytes follow |
| Frames.LinesRead | src/message_parser.cpp:62-112 | texts, errors and integers are their first line, and a number that is none is refused |
| Frames.FrameRead | src/message_parser.cpp:113-131 | a frame is its payload of exactly the announced length, zero included, whatever it holds and with two more bytes behind it; a snapshot without them |
| Frames.FrameAwaited | src/message_parser.cpp:187-238 | a frame of which bytes are missing is waited for |
| Frames.ArrayRead | src/message_parser.cpp:133-153 | an array has exactly the announced number of elements, none if that is not positive |
| Frames.Refused | src/message_parser.cpp:62-162 | another first byte, and a length that is no number or is negative, is refused |
| Frames.GetackBytes | src/message.cpp:25-58 | the bytes of a GETACK, 37 of them |
| Frames.AckBytes | src/replica_talker.cpp:108-110 | the bytes of an ACK of any offset |
| Frames.SetBytes | src/command_storage.cpp:92-105 | the bytes of a SET as it is pushed |
| WireRoundTrip.RoundTripsIff | src/message.cpp:25-58 | reading what was printed with the one-pass grammar gives the message back, nested to any depth and whatever follows, exactly if it is wireable; the rest is untouched |
| WireRoundTrip.ListRoundTripsIff | src/message.cpp:46-56 | the same for the concatenation of a list of messages, read with the grammar |
| WireRoundTrip.ExpectedRoundTrips | src/message.cpp:43-45 | a snapshot with any payload, printed without a closing CR LF, is read back where a snapshot is expected |
| Pieces.Simulates | src/message_parser.cpp:62-162 | parsing the queue of pieces agrees with the one-pass grammar on the bytes they were cut from: done with the same message and rest, incomplete, or rejected |
| Pieces.CutsDetermined | src/message_parser.cpp:187-238 | the pieces, the leftover bytes and the pending length are determined by the bytes received |
| Pieces.CutsFeed | src/message_parser.cpp:187-238 | bytes that arrive later do not change the pieces already cut |
| Pieces.ParseOneShrinks | src/message_parser.cpp:113-150 | a parse that leaves pieces over would have succeeded before the last piece came, so the piece that completes a message is the last one it uses |
| MessageParsers.ParseHelper.Get | src/message_parser.cpp:40-45 | takes the first piece and remembers it |
| MessageParsers.ParseHelper.Unget | src/message_parser.cpp:51-54 | puts the last taken piece back in front |
| MessageParsers.ParseHelper.UngetAll | src/message_parser.cpp:56-60 | puts every taken piece back, in order |
| MessageParsers.ParseHelper.Parse | src/message_parser.cpp:62-162 | computes the recursive parse; a failed attempt at any depth leaves the queue exactly as it was |
| MessageParsers.ParseHelper.ParseElements | src/message_parser.cpp:142-153 | the loop over array elements computes their parse |
| MessageParsers.MessageParser.GetNextRawMessage | src/message_parser.cpp:187-238 | cuts one piece, or changes nothing; wrapping length test included |
| MessageParsers.MessageParser.TryParse | src/message_parser.cpp:170-184 | on everything received since the last message: gives the grammar's message and keeps exactly the rest, or keeps all and waits, or is rejected; with a poisoned length it never gives a message again |
| ReadBacks.ReadBack | src/message_parser.cpp:170-238 | the program's parser gives a printed message back and stops where it ends, with nothing pending, exactly if the message is wireable |
| ReadBacks.ReadList | src/handler.cpp:119-122 | the same for a list of messages read one after the other |
| ReadBacks.ReadCommand | src/command.cpp:17-63 | a command printed, read by that parser and parsed comes back exactly if it is faithful and no word is empty or over-long |
| Delivery.ChunksDoNotMatter | src/message_parser.cpp:170-238 | reading in any chunks, draining after each, hears the same messages and keeps the same bytes as reading at once |
| Delivery.SameParserState | src/message_parser.cpp:170-238 | two parsers that drained the same unfinished bytes agree on buffer, queue and pending length |
| Delivery.PartHeard | src/handler.cpp:115-128 | any prefix of a written stream is heard as its complete messages; the unfinished one is kept |
| Delivery.ThenDecides | src/handler.cpp:115-128 | behind whole messages, bytes that are rejected break the stream whatever comes later, with the messages before them heard; unfinished bytes are kept |
| Delivery.LinkConserves | src/handler.cpp:144-249 | on every run, bytes kept, lost at the end of the stream, in flight and waiting are the messages sent, in order; an open connection has lost none |
| Delivery.EndToEnd | src/handler.cpp:115-249 | for every schedule of partial writes and reads, the messages heard are a prefix of those sent; once drained all of them, exactly if no read that met the end of the stream brought bytes |
| Delivery.LastIsLost | src/handler.cpp:115-128 | send a message, write it, and read it together with the end of the stream: it is never heard, whatever it is |
| Handlers.ArrivedIsBrought | src/handler.cpp:144-178 | what arrives is what the calls bring, one after the other, up to the first that brings none, which says how the read ends |
| Handlers.TransferIsAccepted | src/handler.cpp:201-235 | what is passed on is, to the byte, the sum of what the calls accepted before the write stopped; the call at which it stopped says how it ends |
| Handlers.PartialWrite | src/handler.cpp:201-235 | of one call the bytes that count are those accepted, of what is left but at most 1024, before the next would block |
| Handlers.ClosedThrows | src/handler.cpp:180-212 | a write on a connection that was closed throws if there is anything to write, and passes nothing on |
| Handlers.AnswersAre | src/handler.cpp:119-122 | the answers are what the talker says on each message heard, in order |
| Handlers.SendAllStops | src/handler.cpp:130-142 | sending stops at the first message at which the connection fails or the talker leaves; a reset closes it, any other failure is thrown, and the messages behind it are left |
| Handlers.Handler.Read | src/handler.cpp:144-178 | appends what arrives before the calls block, reset or fail |
| Handlers.Handler.HearAll | src/handler.cpp:119-122 | the loop hears every complete message received, as the specification's reader does, and queues the talker's answers in order |
| Handlers.Handler.ProcessRead | src/handler.cpp:115-128 | hears the messages of the bytes received and sends the talker's answers; a reset or the end of the stream closes first and hears nothing of that read |
| Handlers.Handler.Write | src/handler.cpp:180-235 | passes on exactly what the calls accept, in pieces of at most 1024 bytes, keeps the rest, and watches for room while bytes wait; a closed connection throws |
| Handlers.Handler.SendMessage | src/handler.cpp:237-249 | appends the text of a message and writes |
| Handlers.Handler.ProcessWrite | src/handler.cpp:130-142 | sends what the talker says until it leaves or the connection fails, and all of it otherwise |
| Handlers.SendAllMeans | src/handler.cpp:130-142 | of what a talker says, the bytes passed on are always the first ones; all if nothing fails, all up to where it leaves and nothing behind that |
| Commands.ParseSet | src/command_storage.cpp:6-69 | the cursor loop over SET arguments gives what the specification parser gives |
| Commands.ParseXAdd | src/command_storage.cpp:178-233 | the same for XADD |
| Commands.ParseXRead | src/command_storage.cpp:337-427 | the same for XREAD, keys first and ids after |
| Commands.CollectArgs | src/command.cpp:166-181 | the loop of REPLCONF, PSYNC, INFO and CONFIG collects the arguments, or refuses one that is no bulk string |
| CommandForms.LowerIs | src/command.cpp:32 | names and options are compared with capitals made small, and nothing else changed |
| CommandForms.NameFolds | src/command.cpp:32-60 | any spelling of a name with the same small letters makes the same command |
| CommandForms.NoOtherCommand | src/command.cpp:17-63 | what is no array with one of the fourteen names in front is refused |
| CommandForms.SetForms | src/command_storage.cpp:6-69 | a SET is accepted exactly with key, value and any number of PX, in any spelling, each with a positive number; the last counts |
| CommandForms.WaitForms | src/command.cpp:240-275 | a WAIT of two words or more is accepted exactly if they are numbers and there is no third word alone; negative numbers wrap around |
| CommandForms.OneWordForms | src/command_storage.cpp:107-160 | GET, TYPE and KEYS take one word and do not look at more; ECHO refuses more |
| CommandForms.ListForms | src/command.cpp:128-220 | REPLCONF, PSYNC, INFO and CONFIG take any words |
| CommandForms.XAddForms | src/command_storage.cpp:178-233 | an XADD is accepted exactly with an id that can be read and one pair or more |
| CommandForms.OddXAdd | src/command_storage.cpp:178-233 | a word too many refuses it |
| CommandForms.XRangeForms | src/command_storage.cpp:270-320 | an XRANGE is accepted exactly with a key and two bounds that can be read |
| CommandForms.XRangeByTime | src/storage.cpp:167-186 | bounds may be given by their time alone |
| CommandForms.XReadForms | src/command_storage.cpp:337-427 | an XREAD with any number of BLOCK, in any spelling, the last of which counts, is accepted exactly if every id can be read |
| CommandForms.XReadByTime | src/storage.cpp:192-206 | positions may be given by their time alone |
| CommandForms.XReadRefused | src/command_storage.cpp:337-427 | another word, BLOCK without a number, and STREAMS with no words or an odd number of them are refused; options alone are accepted |
| CommandForms.ShortXRead | src/command_storage.cpp:337-427 | with fewer than three words an XREAD is refused |
| CommandForms.NeedsBulks | src/command.cpp:17-63 | the commands that look at all their words take bulk strings only |
| CommandRoundTrip.CommandRoundTripsIff | src/command.cpp:17-63 | parsing a constructed command gives it back, for every command, exactly if it is faithful |
| CommandRoundTrip.ReadsBackIff | src/command_storage.cpp:337-457 | the parser takes an XREAD's words apart into the request exactly if writing keys and ids in turn gives the same words as writing them in two groups |
| CommandRoundTrip.XReadFaithful | src/command_storage.cpp:442-457 | an XREAD of different streams survives exactly if it names one, or two of which the second key is spelt like the first id |
| CommandRoundTrip.GroupedReadParses | src/command_storage.cpp:337-427 | every XREAD of one stream or more, sent with the keys first and the ids after, is accepted as it is, with a stream named twice or not |
| CommandRoundTrip.EmptyReadParses | src/command_storage.cpp:337-427 | an XREAD of options alone is accepted, with no stream |
| CommandRoundTrip.CommandOverWireIff | src/command.cpp:17-63 | over bytes, read with the grammar: exactly if moreover no word is empty or over-long |
| Links.LinkHears | src/replica_talker.cpp:24-120 | a replica that hears the next message keeps the link invariant and applies what it heard |
| Links.LinkPush | src/storage_middleware.cpp:128-136 | a push keeps the link invariant: it is counted, queued and owed |
| Links.LinkAck | src/storage_middleware.cpp:107-119 | hearing an ACK keeps the link invariant |
| Links.AckIsOffset | src/replica_talker.cpp:106-110 | the k-th ACK is the number of bytes before the k-th GETACK |
| Replication.StepKeeps | src/storage_middleware.cpp:20-136 | every step keeps the invariant of all connections |
| Replication.RunKeeps | src/storage_middleware.cpp:20-136 | the invariant holds after every run |
| ReplicationTheorems.BytesConserved | src/storage_middleware.cpp:128-136 | the bytes pushed to a replica are those it has counted plus the sizes of the messages in flight |
| ReplicationTheorems.PrefixReplicated | src/replica_talker.cpp:89-120 | a replica's map is its map after the snapshot with a prefix, in order, of the SETs since then applied; all of them when the channel is empty, and then the master's map if it started from it |
| ReplicaMaps.SnapshotLoads | src/replica_talker.cpp:58-65 | a replica that waits for the snapshot puts what it restores over its map, key by key, and then takes commands; any other message does nothing |
| ReplicaMaps.HandshakeMoves | src/replica_talker.cpp:24-57 | before that only the scripted answer leads a replica on, to the scripted words, and nothing changes its map |
| ReplicaMaps.CommandsCount | src/replica_talker.cpp:89-120 | every command counts for the offset, only a SET changes the map, at its key, and only GETACK is answered |
| ReplicaMaps.BaseIsLoaded | src/replica_talker.cpp:58-65 | on every run, what a replica in command mode started from is, key by key, the map it joined with and over it what it restored from the snapshot it heard |
| ReplicaMaps.OwnMapUntilThen | src/replica_talker.cpp:24-57 | until then it has the map it joined with |
| ClientCommands.SetHeard | src/server_talker.cpp:35-43 | a SET that is heard puts its value under its key and changes no other, is appended to the channel of every replica in WRITE and of no other, counted for it, and answered OK |
| ClientCommands.WaitHeard | src/server_talker.cpp:139-141 | a WAIT that is heard is answered at once exactly if enough replicas are up to date, with their number; if not it is listed with its targets and a timer, and GETACK goes to those that lag and are in WRITE |
| ClientCommands.SetIsStep | src/server_talker.cpp:35-43 | hearing a client's SET is the step of the step system, and tells the client OK |
| ClientCommands.WaitIsStep | src/server_talker.cpp:139-141 | hearing a client's WAIT is the step of the step system |
| ClientCommands.OthersTouchNothing | src/server_talker.cpp:20-215 | any other command that is heard, and what is none, changes no map, handle, WAIT or other channel; PING is answered PONG, what is no command with an error |
| ClientCommands.PsyncHeard | src/server_talker.cpp:118-137 | a PSYNC is answered with the banner and then the dump, and puts the replica of its connection, and nothing else, in WRITE |
| ClientCommands.ConfirmedIff | src/storage_middleware.cpp:96-122 | REPLCONF is confirmed exactly if it is no ACK; an ACK that is a number sets the counter, wrapped to 64 bits, and one that is none does nothing |
| ReplicationTheorems.AcksAreExact | src/replica_talker.cpp:106-116 | the ACKs heard and unheard are the offsets of the GETACKs processed, in order, and the master's counter is the last heard that fits 32 bits |
| ReplicationTheorems.AckIsCounterBefore | src/replica_talker.cpp:106-116 | on every run an ACK is the master's counter of pushed bytes in the state in which a WAIT pushed the GETACK it answers |
| ReplicationTheorems.AckStaysBelow | src/storage_middleware.cpp:184-192 | the ACK counter never passes the pushed bytes and equals them exactly if nothing was ever pushed |
| ReplicationTheorems.CountersGrow | src/storage_middleware.cpp:107-136 | no step lowers the pushed or the ACKed bytes of a replica |
| ReplicationTheorems.Lockstep | src/server_talker.cpp:110-137 | master and replica are always in one scripted stage: PSYNC finds an id, nothing is pushed before the snapshot, a replica taking commands has a handle in WRITE |
| ReplicationTheorems.ExpectsSnapshotIff | src/replica_talker.cpp:74-79 | a replica expects a snapshot exactly when the next message said to it is one |
| ReplicationTheorems.SaidIsReadableIff | src/replica_talker.cpp:74-79 | all a master says to a replica can be read at its place, the unterminated snapshot included, exactly if the banner, the dump and the SETs can be carried |
| ReplicationTheorems.SaidIsDelivered | src/replica_talker.cpp:24-79 | then over bytes, with any write counts and chunks, the replica hears a prefix of it, and all once drained |
| ReplicationTheorems.ReplicaSaysReadable | src/replica_talker.cpp:19-51 | all a replica has said and the master has not heard can be read |
| ReplicationTheorems.SpokenIsDelivered | src/replica_talker.cpp:19-120 | over bytes the master hears all a replica says, ACKs included, in order |
| Carriage.RunSuits | src/replica_talker.cpp:19-120 | all that is said on a run can be carried, if its SETs, ports, banners and dumps can |
| ByteRefinement.BytesRefine | src/handler.cpp:115-249 | every run over bytes, with writes and reads of any size on every connection in any order between the steps, is a run over messages; on every open connection each end has heard exactly what its world says, in order, and rejected nothing |
| ByteRefinement.BytesReplicate | src/storage_middleware.cpp:20-25 | over bytes, a replica has applied a prefix of the SETs since its start in order, and all as soon as no byte is on its way to it; its map is then the master's if it started from the master's |
| ByteRefinement.BytesWait | src/storage_middleware.cpp:138-222 | over bytes, the answer to a WAIT counts distinct replicas registered when it was asked, each of which has read and processed all that had been pushed to it by then, as many as asked for or registered unless the timer fired |
| WaitTickets.AckKeepsTickets | src/storage_middleware.cpp:112-115 | an ACK visits every pending WAIT once; each stays pending or is answered, and the valid timers stay those of the pending ones |
| WaitTickets.TimerKeepsTickets | src/storage_middleware.cpp:208-222 | the same when a timeout job runs, valid or not |
| WaitSoundness.AckReaches | src/storage_middleware.cpp:162-173 | an ACK reaches the target of a WAIT exactly if its GETACK lies behind what had been pushed |
| WaitSoundness.StepKeepsWaits | src/storage_middleware.cpp:138-222 | every step keeps what holds of pending WAITs and of answers |
| WaitSoundness.RunKeepsWaits | src/storage_middleware.cpp:138-222 | it holds after every run |
| WaitTheorems.WaitIsSound | src/storage_middleware.cpp:138-222 | the answer to a WAIT counts distinct replicas registered when it was asked, each of which has processed all that had been pushed to it by then; it counts as many as asked for or registered unless the timer fired, and never more than registered |
| WaitTheorems.CountedHasSets | src/storage_middleware.cpp:138-222 | a counted replica the master was writing to has by then executed every SET since it started to |
| WaitTheorems.UnwrittenCounts | src/storage_middleware.cpp:184-192 | a replica that is registered but not written to yet is counted at once by every WAIT, having been told none |
| WaitRuns.UnwrittenIsCounted | src/storage_middleware.cpp:184-192 | a run of half a handshake, a SET and a WAIT for one replica: the WAIT is answered 1 at once, counting a replica that has heard one message and no SET |
| WaitTheorems.WaitAnsweredOnce | src/storage_middleware.cpp:80-84 | on every run a WAIT is pending or answered, once, its timer is valid exactly while it is pending, and it is answered once its timer has fired |
| WaitTheorems.AckCountsIff | src/storage_middleware.cpp:156-182 | the next ACK of a listed replica counts exactly if every GETACK pushed to it had been answered when the WAIT was set up |
| Progress.ReplicaCatchesUp | src/replica_talker.cpp:24-120 | from every reached state a replica can hear all that was said to it |
| Progress.MasterCatchesUp | src/server_talker.cpp:20-215 | and the master all that a replica said |
| Progress.WaitEnds | src/storage_middleware.cpp:208-222 | every pending WAIT has a timer that can fire, and is answered then |
| Progress.BytesCatchUp | src/handler.cpp:115-249 | over bytes, one write and one read of all there is make the replica hear all that was said to it |
| WaitRuns.SecondWaitLoses | src/storage_middleware.cpp:162-173 | a run of a handshake, a SET and two overlapping WAITs: the replica processes all and both its ACKs are heard, yet the second WAIT has counted nobody and lists nobody |
| WaitRuns.SecondWaitTimesOut | src/storage_middleware.cpp:208-222 | so it is answered 0 when its timer fires |
| StorageMiddlewares.StorageMiddleware.Set | src/storage_middleware.cpp:20-25 | stores the value and pushes the SET to all replicas |
| StorageMiddlewares.StorageMiddleware.Push | src/storage_middleware.cpp:86-90 | the loop over replicas, in any order, pushes once to each |
| StorageMiddlewares.StorageMiddleware.PushToReplica | src/storage_middleware.cpp:128-136 | counts and says the message only in WRITE |
| StorageMiddlewares.StorageMiddleware.AddReplica | src/storage_middleware.cpp:51-55 | registers a replica in MET under a new id |
| StorageMiddlewares.StorageMiddleware.RemoveReplica | src/storage_middleware.cpp:57-59 | forgets a replica |
| StorageMiddlewares.StorageMiddleware.ReplicaSetState | src/storage_middleware.cpp:69-74 | sets the state of a registered replica |
| StorageMiddlewares.StorageMiddleware.ReplicaProcessConf | src/storage_middleware.cpp:61-122 | an ACK updates counters and is not confirmed, other configuration is |
| StorageMiddlewares.StorageMiddleware.UpdateWaits | src/storage_middleware.cpp:112-115 | the loop that erases while it iterates visits every WAIT once, in order |
| StorageMiddlewares.StorageMiddleware.UpdateReplicaAck | src/storage_middleware.cpp:156-182 | removes the entry, compares, counts, and replies when enough are ready |
| StorageMiddlewares.StorageMiddleware.Setup | src/storage_middleware.cpp:184-192 | splits the replicas, in any order, into those up to date and those to ask |
| StorageMiddlewares.StorageMiddleware.WaitFor | src/storage_middleware.cpp:80-84 | answers at once or asks the lagging replicas and arms a timer; every WAIT stays pending or answered exactly once |
| StorageMiddlewares.StorageMiddleware.Reply | src/storage_middleware.cpp:214-222 | replies, invalidates the timeout job and leaves the list |
| StorageMiddlewares.StorageMiddleware.FireTimer | src/storage_middleware.cpp:208-211 | a valid timeout job replies for its WAIT, which is still in the list; an invalidated one does nothing |
| Talkers.ServerTalker.Listen | src/server_talker.cpp:20-215 | the master's reaction to PING, SET, REPLCONF, PSYNC, WAIT and to what does not parse |
| Talkers.ServerTalker.Interrupt | src/server_talker.cpp:217-222 | a closed connection forgets its replica |
| Talkers.ReplicaTalker.Listen | src/replica_talker.cpp:24-72 | the handshake of a replica, one scripted answer per state |
| Talkers.ReplicaTalker.Expected | src/replica_talker.cpp:74-79 | a snapshot is expected exactly after the four messages of a handshake that come before it |
| Talkers.ReplicaTalker.Process | src/replica_talker.cpp:89-120 | applies a SET, answers GETACK with the offset before it, and counts every command |
| Streams.AppendsAtEndIff | src/storage.cpp:248-295 | an XADD keeps the entries strictly increasing and loses none; it appends at the end exactly if it is accepted and does not overflow; a refused one changes nothing |
| Streams.ZeroIdIff | src/storage.cpp:248-295 | when an XADD gives the id 0-0 |
| Streams.TakesLeastAllowed | src/storage.cpp:248-295 | without overflow an XADD takes the least id its request allows, and is refused exactly if there is none |
| Streams.RefusedIff | src/storage.cpp:248-276 | an XADD is refused for the id 0-0 exactly if it asks for that, and for an id not above the top exactly if what it asks for cannot be |
| Streams.EmplaceHolds | src/storage.cpp:293 | an accepted entry is there afterwards unless its id was taken, and nothing else comes or goes |
| Streams.OverflowLandsBelow | src/storage.cpp:261-269 | where the last sequence number is used up, a wildcard takes number 0 and the top stays the top |
| Streams.StaysSorted | src/storage.cpp:248-295 | over any sequence of XADDs and clock readings the entries stay strictly increasing; without overflow and with a positive clock never 0-0 and only growing at the end |
| Streams.RangeIff | src/storage.cpp:297-314 | XRANGE gives a range exactly if no entry lies between crossed bounds; then it holds exactly the entries in bounds |
| Streams.OrderedBounds | src/storage.cpp:297-314 | with the bounds in order it always gives a range |
| Streams.RangeThenRead | src/storage.cpp:297-330 | XRANGE up to an id followed by XREAD after it is the whole stream |
| Streams.PagesCoverOnce | src/storage.cpp:316-330 | paging by the last id seen returns every entry exactly once, with appends in between |
| Streams.StreamValue.Append | src/storage.cpp:248-295 | the branches of `append` choose the id and entries of the specification |
| Streams.StreamValue.XRange | src/storage.cpp:297-314 | as `RangeIff`, for the positions the program computes |
| Streams.StreamValue.XRead | src/storage.cpp:316-330 | exactly the entries above the id; none for `$` |
| Streams.StreamValue.LastId | src/storage.cpp:332-338 | the greatest id, or 0-0 |
| BlockingReads.StepKeeps | src/storage.cpp:340-496 | every XADD, XREAD, job, timeout, SET and expiry keeps the invariant: lists exact, answers single, wakeups due |
| BlockingTheorems.AnsweredOrListed | src/storage.cpp:345-377 | on every run an XREAD has one answer, or is held by exactly the lists of its keys; it has neither exactly if it blocked without naming a stream |
| BlockingTheorems.EmptyReadIsLost | src/storage.cpp:486-492 | an XREAD that blocks without naming a stream is never answered and waits nowhere |
| BlockingTheorems.NoLostWakeup | src/storage.cpp:442-455 | a blocked reader with something to read is in a posted job; once the jobs have run there is none |
| BlockingTheorems.WakeGivesIff | src/storage.cpp:442-455 | with no job due, an accepted XADD gives a reader that waits on its stream something exactly if the new id is above the reader's position |
| BlockingTheorems.AnsweredAtOnce | src/storage.cpp:470-494 | an XREAD that does not block, or finds something, adds exactly one reply, for itself: for each position the end of its stream above the id as it is then, nothing for `$`, in the order asked and without empty streams |
| BlockingTheorems.BlocksUntil | src/storage.cpp:345-369 | one that blocks adds none, is in the lists of its keys, and with a time limit has a timer due at that time from now |
| BlockingTheorems.AddHolds | src/storage.cpp:422-458 | an XADD to a string is refused as such; an accepted one adds its entry to its stream unless the id was taken, changes no other stream, and posts the readers that wait on it |
| BlockingTheorems.TextsChange | src/storage.cpp:392-420 | a SET puts a string where a stream was, an expiry leaves nothing, and other keys keep what they hold |
| BlockingTheorems.AnswerIsNonEmptyIff | src/storage.cpp:371-377 | on every run, the answer to a reader that blocked holds something exactly if a stream it names has an entry that was not there when it blocked and is above its position, which for a `$` is the last id there was then |
| BlockingTheorems.StepAddsReplies | src/storage.cpp:442-455 | a job or a timer answers only readers held until then, each with all its streams hold for it |
| BlockingTheorems.LetsGoExactly | src/storage.cpp:362-377 | on every run a job lets exactly the readers of the oldest posted list go, and a timer exactly its own |
| BlockingTheorems.WokenReadsNew | src/storage.cpp:371-377 | every answer a job or a timer adds to a reader that blocked holds, for each position, what its stream holds for it; for a `$` exactly the entries appended since it blocked, if since then no SET took the key and no XADD to that stream an id below its top, nor 0-0 |
| BlockingTheorems.ReadAllHolds | src/storage.cpp:470-484 | a result holds, for each key asked, exactly what its position asks for, and lists no empty stream |
| BlockingTheorems.TimeoutAnswers | src/storage.cpp:362-367 | when its timer fires a reader that named a stream has exactly one answer and waits in no list |
| BlockingTheorems.SpuriousReply | src/storage.cpp:442-455 | an entry below a reader's position wakes it, and it is answered with nothing |
| Storages.Storage.XAdd | src/storage.cpp:422-458 | creates the stream only if the entry is accepted, and posts a job with the handles waiting now |
| Storages.Storage.XRead | src/storage.cpp:470-496 | answers at once or blocks, with whatever keys the request names |
| Storages.Storage.ReadStreams | src/storage.cpp:471-484 | the loop collects the streams with something to read, in order |
| Storages.Storage.Setup | src/storage.cpp:345-369 | for every request the handle joins each list once for every mention, `$` becomes the last id, a positive timeout is armed |
| Storages.Storage.LeaveLists | src/storage.cpp:374-376 | the loop over the remembered places erases one per key, in any order of the keys |
| Waitlists.EnlistedPlaces | src/storage.cpp:346-348 | a handle has as many places in a list as its request names the key, and nobody else's change |
| Waitlists.LeavesIff | src/storage.cpp:371-377 | a handle with a place for every mention of a key is gone from all lists after its answer exactly if no key is mentioned twice |
| AllReads.StepKeepsEach | src/storage.cpp:340-496 | for every request, every step keeps exact how many places each reader has in each list, that nobody is answered twice, and streams sorted |
| AllReads.AnsweredAtOnceEach | src/storage.cpp:470-494 | the answer at once is the same where keys are repeated |
| AllReads.ListedOnRuns | src/storage.cpp:345-377 | on every run a reader that blocked is in the lists of its keys until it is answered, once at most, and then in those of the keys it named twice |
| AllReads.AnswerLeavesIff | src/storage.cpp:371-377 | on every run, whatever the others did since it blocked, an answer takes a reader out of all lists exactly if its request names no stream twice |
| AllReads.PlainIff | src/storage.cpp:371-377 | the runs in which nobody blocks with a repeated key are exactly the runs of `BlockingReads`, in the same states |
| AllReads.WakeupsKept | src/storage.cpp:442-455 | in those a blocked reader with something to read is in a posted job, and there is none once the jobs have run |
| RepeatedReads.LaterReadersStarve | src/storage.cpp:448-454 | once a reader that named a key twice was answered, whoever comes to wait on that key alone stays in its list without an answer on every further run in which its own timer does not fire |
| RepeatedReads.RepeatedKeyStarves | src/storage.cpp:448-454 | a run of two XREADs and two XADDs after which no job is left, and the second reader waits though there is an entry for it |
| Storages.Storage.Reply | src/storage.cpp:371-377 | answers with whatever there is, gives its callback away and leaves the places it remembers |
| Storages.Storage.Wake | src/storage.cpp:449-453 | a handle that is gone does nothing, one that was answered throws and changes nothing, any other answers |
| Storages.Storage.RunJob | src/storage.cpp:448-454 | the handles of a job that are still alive answer, in order, until one throws |
| Storages.Storage.FireTimer | src/storage.cpp:362-367 | a timeout answers its reader if that is still blocked |
| Storages.Storage.Set | src/storage.cpp:392-399 | a string replaces what a key held, whoever waits on it |
| Storages.Storage.EraseExpired | src/storage.cpp:414-417 | an expired string leaves its key free |
| EventLoops.OnetimeDrains | src/events.cpp:35-44 | the one-time queue ends empty though jobs post jobs; no job runs after it was invalidated, before or by the queue itself; the front of the queue runs first |
| EventLoops.QueuedJobsRun | src/events.cpp:35-44 | a queued job runs unless somebody invalidates it |
| EventLoops.PassLeavesNoneDue | src/events.cpp:55-68 | with a clock read at every timer, a pass leaves no timer that was due at its first reading, not even one armed on the way |
| EventLoops.PassKeepsLater | src/events.cpp:55-68 | the timers that fire after the pass ends are kept, in their order |
| EventLoops.PassRunsValid | src/events.cpp:55-68 | no timer runs after it was invalidated, before the pass or by an earlier job of it |
| EventLoops.DueTimersRun | src/events.cpp:55-68 | every timer due at the first reading runs its job unless somebody invalidates it |
| EventLoops.TimersKeptOrRun | src/events.cpp:55-68 | a timer is kept by a pass, or its job ran, or somebody invalidated it |
| Rounds.RoundServes | src/events.cpp:33-68 | from one pass of the repeated jobs, in which all commands run, to the next: the timers and then the one-time queue, with whatever other jobs, do to the blocked readers a run of theirs, after which no job is left, nobody waits who could read or whose timeout was due when the timers were begun, whoever was let go has one answer, and the loop holds the timer of everybody who waits |
| Rounds.LoopServes | src/events.cpp:33-68 | on every run of the loop, with any commands in the repeated jobs between those stretches and any other jobs, the loop holds the jobs and timers the readers are due, and every such stretch leaves no job, nobody who could read and nobody overdue |
| Rounds.RoundPossible | src/events.cpp:33-68 | jobs that do nothing to the loop stand in the way of no such stretch |
| Rounds.PostingServes | src/storage.cpp:442-455 | an accepted XADD posts the job that the loop must hold for it |
| Rounds.ArmingServes | src/storage.cpp:362-368 | an XREAD that blocks with a time limit arms the timer that the loop must hold for it |
| EventLoops.CallDrops | src/events.h:54-87 | a job that runs makes exactly those invalid whose handles it drops; an invalid one that is called none |
| EventLoops.InvalidNeverRuns | src/events.h:54-58 | what is invalid runs no more, neither from the queue nor by a timer |
| EventLoops.ArmedStays | src/events.cpp:26-31 | a timer armed for some time stays through every pass that ends before that is over |
| EventLoops.ArmedRuns | src/events.cpp:55-68 | it runs in a pass that begins when it is over, unless somebody invalidates it |
| EventLoops.QueueOrder | src/events.cpp:35-44 | queued jobs run in the order they were queued in |
| EventLoops.EventLoop.PostJob | src/events.cpp:14-18 | queues a job and gives its handle |
| EventLoops.EventLoop.SetTimeout | src/events.cpp:26-31 | arms a timer and gives its handle |
| EventLoops.EventLoop.Call | src/events.h:54-58 | calls a job only if it is valid |
| EventLoops.EventLoop.RunOnetimeJobs | src/events.cpp:35-44 | the queue loop |
| EventLoops.EventLoop.RunTimeoutJobs | src/events.cpp:55-68 | the loop that erases while it iterates and reads the clock at each timer |
| EventLoops.JobHandle.Invalidate | src/events.h:79-87 | stops its job unless the handle was told to forget |
| Base64.DecodeEncode | src/base64.h:6-41 | decoding an encoding gives the bytes back, for every string of any length |
| Base64.EncodedLength | src/base64.h:6-21 | an encoding has 4 * ceil(n / 3) characters |
| Base64.Encode | src/base64.h:6-21 | the loop with the wrapping accumulator computes the encoding of section 4 of RFC 4648 |
| Base64.Decode | src/base64.h:23-41 | the decoding loop computes the whole bytes spelt by the digits before the first other character |
| Base64.Table | src/base64.h:27-28 | the table holds each character's digit, and -1 elsewhere |

## Left out

- Sockets, `accept`, polling and file descriptors: a handler gets the results of its system calls as a list, and a connection is a reliable FIFO.
- The RDB parser: what it restores from a dump is an input of the step in which a replica hears the dump; the dump sent is an input too, since it is a file.
- The time limit of a WAIT: its timer may fire at any time.
- Expiry by the clock: a stored value keeps its `PX`, and maps are compared without expiring anything.
- Byte counters are unbounded numbers; `std::size_t` wrap-around of offsets is not modelled. The 32-bit limit on the ACK offsets that the master parses is.
- SETs have a positive `PX` or none, since SET refuses any other.
- What clients are told for a WAIT, the commands that touch neither replication nor streams, and the texts of errors.
- REPLCONF with fewer than two arguments, which the code reads out of range, is taken as not understood.
- A replica that serves replicas of its own, and a server in replica mode that refuses SET.
- Slots and weak pointers are values: a slot is the channel of its connection, a weak pointer can be locked while a list holds the handle.
- Talkers.ServerTalker.Listen: models the replication commands only; other commands leave the modelled state as it is.
- StorageMiddlewares.StorageMiddleware.Reply: takes the position of the WAIT in the list where the code keeps an iterator.
- Storages.Storage.XRead: requires that no key of the request holds a string, which the code would cast to a stream without a check.
- Storages.Storage.RunJob: requires the same of the keys of the readers it answers, which a SET may have taken since they blocked.
- Storages.Storage.FireTimer: requires the same of the reader it answers.
- BlockingReads.StepKeeps: runs hold no step that casts a string, and no XREAD that blocks with a repeated key, which `AllReads` has.
- AllReads.WakeEach: a callback that was moved away throws when it is called, as an empty one does; the language leaves that state open.
- ByteRefinement.BytesRefine: asks that no replica processes 2^64 bytes. A connection is left at both ends at once, with the bytes on their way.
- Rounds.RoundServes: takes it from the code's handles that nobody stops a wakeup that was told to forget its handle, nor the timer of a reader that is still in a list; and that no string has taken a key that somebody waits on.
- Handlers.Handler.ProcessRead: what the talker says in answer is a function of what it has heard; a talker that also speaks of its own accord is served by `ProcessWrite`.
- EventLoops.OnetimeDrains: a job carries what it will do, so a job that posts itself for ever is not covered; repeated jobs are the turns between the rounds of `Rounds.LoopServes`, and the event queue, on which nothing is ever put, is not modelled.
- Logging, INFO and CONFIG texts, KEYS selectors and random replication ids.
