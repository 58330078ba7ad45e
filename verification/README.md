# The RPC multiplexer of serf-cpp, verified

serf-cpp lets any number of threads call a Serf agent over one connection. `SerfIoThread` gives every request a
sequence number and remembers in a map which channel waits for it; one I/O thread decodes the agent's stream and
hands each message to the channel its number names. A request channel is a one-shot monitor with a timeout; a
subscription channel stays in the map until it is stopped, or, for a query, until the query is done.

The correctness of that rests on which steps share a critical section, on the erase coming before the produce, and on
what the decode loop does with objects it cannot route. This project states it in two layers and proves it.

## The two layers

**A step machine** (`Protocol.dfy`). Each event is one critical section or one unlocked access: a call sends and
registers, stops waiting, looks at `m_dataPending`, removes itself, installs a listener, stops one, returns; the I/O
thread looks up, erases, starts and ends a `produce`; the agent replies or emits a record; the connection closes. A run
is any interleaving of any number of calls. `ProtocolInvariant.dfy` and `ProtocolPreservation.dfy` give an inductive
invariant; `ProtocolTheorems.dfy` draws the results from it, `ProtocolWindows.dfy` settles when a listener can be
removed while it is served, `ProtocolHeap.dfy` which listener channels are leaked, and `ProtocolWitnesses.dfy` has runs
that reach the situations found. Two flags only record history: `cut` (another thread removed the number the I/O thread
is serving) and `raced` (the owner read `m_dataPending` without the lock while `produce` held it). `fault`
marks the use of a channel that no longer exists.

**The program's own shape.** `IoThread.dfy` is the class `SerfIoThread` with its counter, its map with null
placeholders, its decoder and its nested loops; `Decoder.dfy` has the unpacker's buffer and the read loop,
`Channels.dfy` the channels and their `produce`, `Client.dfy` the life of a call. The I/O thread is interrupted
wherever it holds no lock: its loop is given a schedule (`Schedule.dfy`) of what the other threads register and remove
in each turn, before the lookup, between lookup and erase, between erase and `produce`, and between the callback of a
completed query and its deregistration, and `OtherThreads` carries that out. Which live entries the loop meets is then
a function of the objects, the entries at the start and the schedule, `Play`; what it delivers at those entries is
`Demux.DecodeBatches`; which bytes come in which batch is a function of the polls (`Decoder.Pieces`). `Pump.Pumped` puts
them together, and `ProcessRpc` is proved to end in exactly the state `Pumped` says. A call runs against that same
`ProcessRpc`: `Client.Calling` says whether it is answered and what it leaves behind. The class keeps a ghost record of
every delivery (`trace`) and of the live entries at every object taken (`views`); `Reflected` ties it to the real fields
of the channels. `Demux.dfy` has the decode loop as a function next to the simple specification it refines: filter the
agent's messages by what is registered when their header is reached. `Splits.dfy` compares the loop at its own live
entries over a stream that comes in pieces with the loop over the same stream in one.

**Between them.** `ProtocolStream.dfy`: over every run of the machine the lookups and produces are that filter.
`ProtocolSchedule.dfy`: every run is a schedule; it is one that the class can be given (`ScheduleCanBeGiven`, which is
what `SerfIoThread.Start` asks for), and with it the class meets the run's live entries, makes the run's deliveries and
leaves the run's map. `ProtocolRefinement.dfy` has the assumptions of
the filter and of a call, proved of the machine. `Registry.dfy` relates the map with placeholders to a plain map,
`Locks.dfy` treats the mutexes, and `Messages.dfy` the structs whose field names decide routing.

## What the proofs found

- The I/O thread can use a channel that is gone, and exactly when is `ProtocolTheorems.FaultsExactlyWhen`. A removal
  between lookup and access is one cause (a call that times out, or a Stop). The unlocked read of `m_dataPending`
  (`src/SerfClient.cpp:72`) is another: a call whose wait has just timed out can see the answer while `produce` still
  holds the channel's mutex, return, and destroy that mutex. `ServedCallCanFault` and `WaiterIsSafe` say
  for replies, `DoomedCanFault` and `ListenerIsSafe` for records, when a run can still go that way and when not;
  `WindowIsReachable` and `DoomedRun` enter the windows. A query's channel is never among them (`QueryIsNeverPulled`).
- A subscription that its connection outlives is leaked as soon as a request of a later connection is sent with its
  number, which overwrites the entry (`src/SerfIoThread.cpp:199`): exactly then (`LeakedExactlyWhen`), for good
  (`NeverMappedAgain`), and in a run that is given (`LeakRun`).
- A query is never completed if a batch ends between the header of its "done" record and the record itself: its
  listener is not told and the entry stays, so that later messages on its number are delivered which would have been
  dropped (`src/SerfChannel.cpp:36-67`). `Splits.SplitDoneKeepsQuery` is an input; `Splits.SplitShowsExactlyWhen` says
  that with the other threads idle a split changes what the loop meets or leaves exactly then,
  `Splits.LeavesTheSameExactlyWhen` says the same with any schedule, message by message. In the runs of the machine a
  query keeps its entry exactly as long as no such record has reached it whole
  (`ProtocolWindows.QueryStaysExactlyWhen`), and `ProtocolWitnesses.UncompletedRun` is a run in which the agent
  completes a query that stays registered (`CompletedRun` is one in which it is completed). All else that a split does
  is to the payloads of the messages it falls inside of (`Splits.SplitsAtOwnEntries`).
- A typed call whose reply header ends a batch of complete objects can be told SUCCESS with default data
  (`SplitReplySucceedsWithDefault`, and `SplitRun` for a whole run). Default data arises exactly so
  (`DefaultDataExactlyWhen`, `DefaultDataNeedsSplit`); in the class, exactly when a batch ends between that header and
  its body (`DefaultExactlyWhenSplit`).
- Whatever is listed below for runs holds in every run of the machine, those included.

## Assumptions

- The agent mentions only numbers it received on the present connection, replies at most once to each, sends a body
  with its reply exactly when the request is typed, and sends records only after a successful reply to the
  subscription and always with a body. No body is routable as a header; `OrphanBodyIsDefaultHeader` shows this of
  every struct the agent sends.
- In the class layer other threads register only new channels, send under the numbers the counter gives them, and
  register nothing under the number of a call in progress: `ProtocolSchedule.ScheduleCanBeGiven` and
  `ProtocolRefinement.OthersRespectCall` prove this of the step machine.
- Fewer than 2^64 requests per connection. The handshake has returned before any other call starts.
- At `Close` no call is in flight and the decoder is at the start of a message.
- `Stop` is given a number the client got from `Monitor` or `Stream` on this connection.
- Listeners do not throw, and do not call `Connect` or `Close`.
- MessagePack objects are self-delimiting and well formed; keyed conversion ignores extra keys, a missing key keeps
  the default, a value of the wrong type throws; `reserve_buffer` leaves the buffer alone when there is room.
- `produce` on a result channel is two events, its locked part and its unlock; nothing else can observe the locked
  part except the unlocked read.

## Model

| member | source | states |
|---|---|---|
| Messages.HeaderRoundTrip | include/serf-cpp/SerfMsgStructs.h:41-45 | a header the agent writes is read back unchanged, for every number below 2^64 |
| Messages.HeaderReads | include/serf-cpp/SerfMsgStructs.h:41-45 | exactly which objects convert to a header, and to which: missing fields keep their defaults, a wrong type or a number of more than 64 bits throws |
| Messages.RoutedExactlyWhen | include/serf-cpp/SerfMsgStructs.h:41-45 | an object is routable as a header iff it is a map whose `Seq` is a positive 64-bit number and whose `Error`, if present, is a string or a binary |
| Messages.OrphanBodyIsDefaultHeader | include/serf-cpp/SerfMsgStructs.h:41-45 | a map with the keys of any body struct reads as the default header, number 0 |
| Messages.CallbackFor | src/SerfChannel.cpp:36-67 | an object completes a query iff it is a record of type "done" on a query's channel, and a query listener is told nothing but acks, responses and completion |
| Messages.RecordRoundTrip | include/serf-cpp/SerfMsgStructs.h:299-385 | every record the agent packs causes the callback with its own contents, and is unroutable as a header |
| Messages.LogIsHeard | src/SerfChannel.cpp:16-28 | a map with the line under `Log` is what a log listener is told |
| Messages.UserEventIsHeard | src/SerfChannel.cpp:86-90 | the event `user`, with its five fields as the agent names them, is told to an event listener |
| Messages.QueryEventIsHeard | src/SerfChannel.cpp:91-95 | so is the event `query` |
| Messages.MemberEventIsHeard | src/SerfChannel.cpp:96-104 | so is each of the five member events, with its members |
| Messages.OnlyNamedEvents | src/SerfChannel.cpp:86-104 | and no record that names no event of these seven |
| Messages.FieldReads | include/serf-cpp/SerfMsgStructs.h:299-385 | exactly what a string, a 64-bit and a boolean field take, and the default each keeps when it is missing |
| Messages.BareRecords | include/serf-cpp/SerfMsgStructs.h:299-385 | a record with nothing but its type is heard with the defaults |
| Messages.LogReads | src/SerfChannel.cpp:16-28 | exactly which log records throw |
| Messages.MemberReads | include/serf-cpp/SerfMsgStructs.h:202-225 | exactly which objects convert to a member: eleven fields, the port a 32-bit int, six versions of one byte |
| Messages.AnswersAreHeard | src/SerfChannel.cpp:46-60 | a query's listener is told of each ack, each response and the end |
| Messages.OnlyNamedAnswers | src/SerfChannel.cpp:46-61 | and of no record of another type |
| Messages.JoinRoundTrip | include/serf-cpp/SerfMsgStructs.h:195-198 | a packed count is read back iff it is a 32-bit int, and throws otherwise |
| Messages.JoinReads | include/serf-cpp/SerfMsgStructs.h:195-198 | exactly which objects convert to a count, and to which |
| Registry.StepRefines | src/SerfIoThread.cpp:243-254 | on the map with null placeholders, a put replaces, an erase and a removal take out and a read leaves the live entries as on a plain map, and a read or a removal hands out the pointer that was there |
| Registry.PlaceholdersAreInvisible | src/SerfIoThread.cpp:138-149 | so does every sequence of operations |
| Registry.AbsentIsHarmless | src/SerfIoThread.cpp:141-141 | looking up or removing an absent number changes no live entry |
| Decoder.FeedLater | src/SerfIoThread.cpp:127-131 | bytes fed later give the same objects and the same leftover as bytes fed at once |
| Decoder.AnySplitSameObjects | src/SerfIoThread.cpp:127-131 | however bytes are cut into batches, the batches together give the objects of all the bytes, in order |
| Decoder.RestIsPartial | src/SerfIoThread.cpp:131-131 | what is left after draining is not a complete object |
| Decoder.EncodedObjects | src/SerfIoThread.cpp:131-132 | the objects of encodings that follow each other are the objects encoded, in order, and what does not make up another is left |
| Decoder.EncodedInPieces | src/SerfIoThread.cpp:127-132 | and that in whatever pieces the bytes come |
| Decoder.Unpacker.Reserve | src/SerfIoThread.cpp:102-102 | keeps the bytes, makes room, and leaves the buffer alone when there is room |
| Decoder.Unpacker.Consumed | src/SerfIoThread.cpp:127-127 | the pending bytes grow by exactly the bytes written behind them |
| Decoder.Unpacker.Next | src/SerfIoThread.cpp:131-132 | gives exactly the object that stands at the front of the pending bytes, if it is complete, and leaves the bytes behind it |
| Decoder.Socket.Read | src/SerfIoThread.cpp:104-108 | a positive result is a prefix of the incoming bytes, written at the given place within the given room |
| Decoder.ReadMore | src/SerfIoThread.cpp:93-110 | one turn of the read loop takes, if the socket is ready, as many bytes as the kernel, the bytes there and what is left of 1048576 allow, appends them, and stays within the reserved space |
| Decoder.ReadLoop | src/SerfIoThread.cpp:88-111 | ends; it reads the least of what the polls allow up to the first that gives nothing, of what is there, and of 1048576; the buffer holds the bytes read, in order, none lost or repeated |
| Decoder.FilledExactly | src/SerfIoThread.cpp:88-111 | that least, for the loop from any point on |
| Decoder.KeepsReading | src/SerfIoThread.cpp:88-111 | the loop goes on while the socket is ready: so many ready polls read at least so many bytes |
| Decoder.ReadBatch | src/SerfIoThread.cpp:86-127 | the decoder is given exactly the bytes read, and the oversize branch is never entered |
| Decoder.PiecesAreBytes | src/SerfIoThread.cpp:76-127 | over any rounds the pieces handed to the decoder are the socket's bytes in order, none larger than the buffer |
| Demux.MessageInFront | src/SerfIoThread.cpp:131-153 | the loop at a message delivers it iff registered and is at the next header afterwards, whatever happened to its body |
| Demux.CutLoopIsFilter | src/SerfIoThread.cpp:131-158 | on any stream of messages the loop delivers exactly the messages registered when their header is reached |
| Demux.BatchesAreCuts | src/SerfIoThread.cpp:77-159 | decoding batch by batch is decoding the whole stream with the batch ends marked |
| Demux.LoopRefinesFilter | src/SerfIoThread.cpp:77-159 | the decode loop over any batches refines the filter |
| Demux.DamageIsContained | src/SerfChannel.h:114-122 | at given live entries, batch ends change nothing in the filter but the payload of the messages they fall inside of |
| Demux.SplitsAreContained | src/SerfIoThread.cpp:127-158 | at given live entries, the loop over batches delivers what it would deliver in one piece, but for those payloads |
| Demux.DeliveredInOrder | src/SerfIoThread.cpp:131-153 | deliveries are of distinct messages, in stream order |
| Demux.MissingBodySwallowsHeader | src/SerfChannel.h:117-120 | the assumption on bodies is needed: a typed reply without a body takes the next header for it |
| Demux.DecodeAppend | src/SerfIoThread.cpp:131-158 | a batch taken apart between messages decodes to the two parts' deliveries |
| Schedule.PlayBatchesIsPlay | src/SerfIoThread.cpp:77-159 | the live entries the loop meets batch by batch are those it meets over the whole stream with the batch ends marked |
| Schedule.PlayBySplits | src/SerfChannel.h:117-121 | and of the batch ends only those matter that fall in front of a body a channel asks for |
| Schedule.TurnOver | src/SerfIoThread.cpp:131-158 | a turn that is over, whatever comes behind it in the stream, is the next turn of the loop |
| Pump.RoundAddsUp | src/SerfIoThread.cpp:76-159 | what all rounds make of bytes, polls and schedule is what the first makes of them and then the others |
| Pump.DeliversTheRegistered | src/SerfIoThread.cpp:76-159 | at entries aligned to the agent's messages the thread delivers exactly the registered ones, each with its own body, in order, a body missing only where a batch ended |
| Pump.OneMessagePumped | src/SerfIoThread.cpp:76-159 | from the bytes to the channel: a message that comes alone in one read is the one delivery, to the channel registered under its number, with its body if the channel takes one |
| Pump.PumpedIsPlay | src/SerfIoThread.cpp:76-159 | what all rounds make of the bytes is what the loop makes of all their objects with the batch ends marked |
| Splits.CourseIsPlay | src/SerfIoThread.cpp:131-158 | the loop over messages, turn by turn, is the loop message by message, whatever the other threads do between messages and inside of them |
| Splits.SplitShowsExactlyWhen | src/SerfChannel.cpp:36-67 | with the other threads idle, the loop meets and leaves over a stream in pieces the live entries it meets and leaves over the stream in one iff no batch ends between a header and the record that completes the query it finds; its deliveries are then those of the stream in one but for the payloads cut off |
| Splits.LeavesTheSameExactlyWhen | src/SerfChannel.cpp:55-60 | with any schedule, the live entries behind every message are those of the stream in one iff no deregistration is lost to a batch end |
| Splits.SplitsAtOwnEntries | src/SerfIoThread.cpp:127-158 | and then the loop, at the live entries it has itself brought about, delivers what it delivers in one piece but for the payloads of the messages that a batch end falls inside of |
| Splits.PumpedShowsExactlyWhen | src/SerfIoThread.cpp:76-159 | the same of the I/O thread with its bytes and polls, the other threads idle |
| Splits.PumpedUnlessLost | src/SerfIoThread.cpp:76-159 | and with any schedule, unless a deregistration is lost |
| Splits.CutsShowOnlyWhereTheyFall | src/SerfIoThread.cpp:76-159 | the same bytes under two series of polls, neither of which cuts a completing record: same live entries met and left, same deliveries but for the payloads cut off by one of them |
| Splits.SplitDoneKeepsQuery | src/SerfChannel.cpp:55-60 | a stream for which a batch end inside the completing record leaves the query registered and has one message more delivered |
| Channels.ResultChannel.Produce | src/SerfChannel.h:109-124 | stores the header, takes one body iff typed, and leaves data pending iff the body, if any, converts |
| Channels.ListenerChannel.Produce | src/SerfChannel.cpp:16-110 | takes one object if there is one and tells the listener exactly what it means, as the rows on `Messages` say; when it throws and when it asks for removal |
| Channels.PendingExactlyWhen | src/SerfChannel.h:109-124 | after any deliveries a request's channel holds an answer iff one of them was to it and carried no body or one that converts |
| IoThread.SerfIoThread.constructor | src/SerfIoThread.h:51-75 | starts with an empty map, number 0 and nothing to decode |
| IoThread.SerfIoThread.Register | src/SerfIoThread.cpp:199-199 | the assignment through `operator[]` on a fresh channel |
| IoThread.SerfIoThread.SendData | src/SerfIoThread.cpp:189-223 | burns a number either way, wrapping at 2^64; registers iff the send worked, and else leaves map and caller's number alone |
| IoThread.SerfIoThread.AddChannel | src/SerfIoThread.cpp:225-241 | puts a fresh listener channel under the number |
| IoThread.SerfIoThread.RemoveChannel | src/SerfIoThread.cpp:243-254 | removes exactly that entry and deletes the channel iff it was a listener's |
| IoThread.SerfIoThread.Find | src/SerfIoThread.cpp:138-142 | finds the live entry iff there is one and changes none |
| IoThread.SerfIoThread.Erase | src/SerfIoThread.cpp:145-149 | the request's entry is gone and its channel is registered nowhere from then on |
| IoThread.SerfIoThread.Close | src/SerfIoThread.cpp:63-74 | resets the counter and keeps the map |
| IoThread.SerfIoThread.OtherThreads | src/SerfIoThread.cpp:189-254 | the steps a schedule gives change the live entries as `After` says; each send among them takes the counter on; a number in use is taken by nobody else, and a listener channel leaves it only by being deleted |
| IoThread.SerfIoThread.Dispatch | src/SerfIoThread.cpp:152-152 | a request channel is produced to only after its erase; the delivery made carries what the decoder had; a completed query and nothing else loses its entry, after what others did since its callback, and the channel there is deleted |
| IoThread.SerfIoThread.Deliver | src/SerfIoThread.cpp:152-152 | one delivery more, under the channel's own number, and every channel is in the state the deliveries have left it in |
| IoThread.SerfIoThread.Turn | src/SerfIoThread.cpp:131-158 | one turn takes the objects, makes the delivery, and leaves the live entries that the loop function and the schedule say |
| IoThread.SerfIoThread.DecodeLoop | src/SerfIoThread.cpp:131-158 | the live entries it meets, those it leaves and the turns it takes are those of `Play` from its own map and schedule; its deliveries are those of the loop function at them; the leftover stays; no served request is registered (`ServedAreGone`) |
| IoThread.SerfIoThread.Round | src/SerfIoThread.cpp:78-158 | the same for one round, over the pending bytes and those the polls let it read |
| IoThread.SerfIoThread.ProcessRpc | src/SerfIoThread.cpp:76-163 | after any rounds, bytes left on the socket and in the decoder, live entries met and left, deliveries and schedule left are exactly those of `Pumped`, and every channel's state is what the deliveries made of it; a record that comes alone in one read, for a listener whose entry nobody touches, is told to it, and nothing else is |
| IoThread.SerfIoThread.Start | src/SerfIoThread.cpp:15-59 | a new connection can be set going with any schedule that registers each channel once and sends under the counter's numbers |
| IoThread.SerfIoThread.DefaultExactlyWhenSplit | src/SerfChannel.h:109-124 | a typed request whose reply was delivered has an answer iff a batch ended behind that header or the object there converts; its data is that object iff no batch ended and it converts, and default data otherwise |
| Client.SerfClient.Consume | src/SerfChannel.h:98-107 | ends where `Waited` says: at the first wake-up that finds an answer, or when they run out |
| Client.AnsweredExactlyWhen | src/SerfClient.cpp:69-77 | a call whose request was sent is answered iff a reply without body, or with one that converts, was delivered to its channel by the time the others have run once before the wait, once for each wakeup and for the one that ends it, and once before the look |
| Client.WireDecides | src/SerfClient.cpp:69-77 | from the bytes: no answer if none come; a reply that comes alone in one read, the call's entry untouched by others, is the call's answer iff its body, if it needs one, converts |
| Client.SerfClient.Await | src/SerfClient.cpp:70-77 | answered iff an answer has been delivered by the unlocked look; either way the channel is registered nowhere afterwards; an answer carries the call's number and is the one delivered |
| Client.SerfClient.Ask | src/SerfClient.cpp:69-72 | the same with the send in front, from the entries with the call's own added; a failed send burns a number and changes nothing else |
| Client.SerfClient.Connect | src/SerfIoThread.cpp:15-59 | true iff connected, sent and answered without error; number 0 has no entry afterwards |
| Client.SerfClient.Join | src/SerfClient.cpp:58-81 | the channel accepts exactly what converts to a count; a count delivered to it by the look is what the caller gets, with SUCCESS if there is no error; the default if the body was missing, nothing without an answer; and the same told from the bytes of a reply, TIMEOUT if its body does not convert or nothing comes |
| Client.SerfClient.Command | src/SerfClient.cpp:83-104 | `Auth` and its like: FAILURE if the send fails, TIMEOUT without an answer, else what the header says; the same told from the bytes of a reply; an answer carries the number sent; the channel is registered nowhere |
| Client.SerfClient.Subscribe | src/SerfClient.cpp:365-459 | on SUCCESS, and only then, a new listener of that kind stands in the map under the request's own number, in what the map has become; otherwise the call leaves no entry |
| Client.SerfClient.Stop | src/SerfClient.cpp:461-488 | on SUCCESS the map has no entry under the number and is otherwise what it has become, and the listener channel that the call found there at its start has been deleted |
| ProtocolRefinement.TakeIsHead | src/SerfIoThread.cpp:131-131 | the machine's decoder takes the objects of the messages in order |
| ProtocolRefinement.AlwaysAligned | src/SerfIoThread.cpp:131-158 | in every reachable state the object to be taken, header or body, is one the loop's assumptions allow, whether the body is taken by its channel or dropped |
| ProtocolRefinement.CallView | src/SerfClient.cpp:69-77 | in every reachable state a call in flight finds under its number only its own unanswered channel, or an answer with its number; data only with an answer and for a typed call |
| ProtocolRefinement.OthersRespectCall | src/SerfClient.cpp:69-77 | no other thread's step takes an answer back or fills a call's empty entry |
| ProtocolRefinement.NeverRegisteredAgain | src/SerfIoThread.cpp:199-199 | no step registers an earlier call's channel again |
| ProtocolStream.RunIsFilter | src/SerfIoThread.cpp:131-158 | in every run, whenever no message is half done, the lookups and produces of the connection amount to the filter, and so to the decode loop, over the messages taken, at the entries that were there as each object was taken, which were aligned to them |
| ProtocolStream.RunIsNearlyFilter | src/SerfIoThread.cpp:131-158 | and in between, to the filter over the messages before, with the delivery of the one half done if it has been made |
| ProtocolSchedule.RunIsPlay | src/SerfIoThread.cpp:131-158 | in every run, when no turn is half done, the loop interrupted as the run was meets the run's live entries and leaves the run's map |
| ProtocolSchedule.RunRegistersOnce | src/SerfIoThread.cpp:189-241 | on a connection every channel registered is one that was not there when it began, each is registered once, and the sends take the numbers from 0 on |
| ProtocolSchedule.ScheduleCanBeGiven | src/SerfIoThread.cpp:189-241 | so the schedule of every run, its channels called by other names, is one that the class can be given |
| ProtocolSchedule.ThreadFollowsRun | src/SerfIoThread.cpp:76-163 | the class, given the bytes and the schedule of a run, meets the run's entries, makes the run's deliveries and leaves the run's map |
| ProtocolPreservation.StepIsStepped | src/SerfIoThread.cpp:131-254 | what each event does to a state satisfying the invariant, field by field |
| ProtocolPreservation.StepKeeps | src/SerfIoThread.cpp:131-254 | every enabled event keeps the invariant |
| ProtocolPreservation.RunKeeps | src/SerfIoThread.cpp:131-254 | the invariant holds after every run |
| ProtocolPreservation.SlotIsFree | src/SerfClient.cpp:381-381 | when a subscription is installed its number has no entry, so nothing is overwritten |
| ProtocolPreservation.EraseIsExact | src/SerfIoThread.cpp:145-149 | the erase removes the entry that was looked up or nothing |
| ProtocolPreservation.OrphanIsSkipped | src/SerfIoThread.cpp:134-141 | an orphan body read as a header finds no channel |
| ProtocolTheorems.Correlation | src/SerfChannel.h:109-124 | an answered call has the header of the reply with its own number and, if typed and the body had arrived, the body right behind it |
| ProtocolTheorems.NoReplyServesTwo | src/SerfIoThread.cpp:138-152 | two calls never hear the same message |
| ProtocolTheorems.ResultIsHonest | src/SerfClient.cpp:69-80 | SUCCESS, FAILURE and TIMEOUT mean what they say |
| ProtocolTheorems.DefaultDataNeedsSplit | src/SerfChannel.h:114-121 | default data reaches a call only if its body had not arrived at its own produce |
| ProtocolTheorems.DefaultDataExactlyWhen | src/SerfChannel.h:109-123 | a produce leaves a typed call with default data iff its body had not arrived, with the body iff it was there and converted, and without an answer otherwise |
| ProtocolTheorems.SplitReplySucceedsWithDefault | src/SerfClient.cpp:70-74 | from any state in which an error-free reply without its body is about to be produced to a typed call that waits or has just stopped waiting, the call can return SUCCESS with default data |
| ProtocolWitnesses.SplitRun | src/SerfChannel.h:114-121 | a whole run that does so, although the reply had a body |
| ProtocolTheorems.WholeReplyIsReturned | src/SerfClient.cpp:70-74 | when the body is there and converts, a typed call that waits or has just stopped waiting can return it, with SUCCESS iff there is no error |
| ProtocolWitnesses.WholeRun | src/SerfClient.cpp:58-81 | a whole run that does so |
| ProtocolTheorems.DataWasConverted | src/SerfChannel.h:117-120 | data is always an object that was there at the call's own produce and converted |
| ProtocolTheorems.TimeoutFoundNothing | src/SerfClient.cpp:72-77 | TIMEOUT is returned only after the call itself looked and found nothing pending |
| ProtocolTheorems.HeadersAreHeaders | src/SerfIoThread.cpp:131-142 | what is taken for a header is a header, routed by its number, or an orphan body, which changes nothing |
| ProtocolTheorems.BodiesAreBodies | src/SerfChannel.h:117-120 | what a channel takes for its body is the body behind the header that found it |
| ProtocolTheorems.NoReturnedCallStaysRegistered | src/SerfIoThread.cpp:145-157 | every REQUEST entry belongs to a call that has neither returned nor been answered, and its key is below the counter |
| ProtocolTheorems.NoReplyOutrunsRegistration | src/SerfIoThread.cpp:189-223 | a reply finds its call's channel unless that call has timed out and removed it |
| ProtocolTheorems.EraseBeforeProduce | src/SerfIoThread.cpp:145-152 | reply handling takes out the entry looked up or nothing, and no listener |
| ProtocolTheorems.ListenerLeavesOnlyBy | src/SerfIoThread.cpp:243-254 | a listener leaves the map only by a Stop of its number, its query's completion, or, from an earlier connection, a new request |
| ProtocolTheorems.FaultsExactlyWhen | src/SerfIoThread.cpp:138-152 | the exact condition under which the I/O thread uses a channel that is gone |
| ProtocolTheorems.FaultHasCause | src/SerfIoThread.cpp:138-152 | every such use has a removal or an early unlocked read inside its own window |
| ProtocolTheorems.ServedCallCanFault | src/SerfClient.cpp:70-77 | while the I/O thread serves a reply the call can, by its own steps alone, time out or be answered early and return, and the next access then uses its destroyed channel, unless the call is still waiting for the mutex that `produce` holds |
| ProtocolTheorems.WaiterIsSafe | src/SerfChannel.h:98-124 | in that one case nothing any thread does leads there before `produce` is over |
| ProtocolTheorems.WindowIsReachable | src/SerfIoThread.cpp:138-149 | the window is entered by the first exchange of a connection |
| ProtocolWindows.ListenerIsSafe | src/SerfIoThread.cpp:138-152 | while a record is served, unless the window is doomed, no step of any thread uses a deleted channel, and the window stays so until it is over |
| ProtocolWindows.DoomedCanFault | src/SerfClient.cpp:475-481 | it is doomed iff its `produce` is to come and the listener is removed, or a Stop of it has its answer, read or not; then the calls concerned can bring the deleted channel to be used |
| ProtocolWindows.QueryIsNeverPulled | src/SerfChannel.cpp:55-60 | a query's channel is removed by nobody else while it is served, and no step then uses a deleted channel, its own deregistration included |
| ProtocolWindows.QueryStaysExactlyWhen | src/SerfChannel.cpp:55-60 | outside of its own callbacks a query of the connection is registered iff no record of its completion has reached it whole |
| ProtocolWitnesses.UncompletedRun | src/SerfChannel.cpp:36-67 | a whole run in which the agent completes a query and everything sent is taken, and the query stays registered, its listener not told |
| ProtocolWitnesses.CompletedRun | src/SerfChannel.cpp:55-60 | and one in which the same record comes whole, and the query's channel is deleted and registered nowhere |
| ProtocolWindows.StopInWindowFaults | src/SerfClient.cpp:475-481 | in particular for every such Stop while the produce of a record is still to come |
| ProtocolWitnesses.DoomedRun | src/SerfClient.cpp:461-488 | a whole run that enters such a window: handshake, Monitor, Stop answered and not yet read, record looked up |
| ProtocolTheorems.ListenerTrace | src/SerfIoThread.cpp:225-254 | a subscription's channel gets exactly the records sent on its number between installation and removal, once each, in order |
| ProtocolTheorems.QueryTraceGrammar | src/SerfChannel.cpp:36-67 | a query's callbacks match (ack or response)* complete?, and after completion its channel is deleted and unregistered |
| ProtocolTheorems.HeapConservation | src/SerfIoThread.cpp:225-254 | no subscription channel is deleted twice; on its connection each is registered exactly once or deleted exactly once |
| ProtocolHeap.LeakedExactlyWhen | src/SerfIoThread.cpp:199-199 | over all connections, a channel that was not deleted is out of the map iff a request of a later connection was sent with its number |
| ProtocolHeap.NeverMappedAgain | src/SerfIoThread.cpp:225-241 | no step of any thread puts an existing listener channel back into the map |
| ProtocolWitnesses.LeakRun | src/SerfIoThread.cpp:199-199 | a whole run that leaks one: Monitor, Close, and the second request of the next connection |
| ProtocolTheorems.ReconnectIsolation | src/SerfIoThread.cpp:63-74 | after its connection closed a subscription channel gets no record and is not deleted, over all later connections |
| ProtocolTheorems.StaleIsNeverFound | src/SerfIoThread.cpp:138-142 | and it is not even looked up |
| ProtocolTheorems.CallsFromCallbacks | example/SerfClientExample.cpp:60-73 | a call made in a callback is never answered, returns FAILURE iff its send failed and TIMEOUT otherwise, and can always go on |
| ProtocolTheorems.LateRepliesAreSkipped | src/SerfClient.cpp:75-78 | after a time-out the number has no entry for the rest of the connection |
| ProtocolTheorems.SequenceDiscipline | src/SerfIoThread.cpp:189-223 | on a connection numbers strictly increase over all threads and stay below the counter |
| ProtocolTheorems.FailedSendOnlyBurns | src/SerfIoThread.cpp:192-204 | a failed send burns a number and changes no map; a successful one overwrites no waiting request, and no listener but one whose connection has closed |
| Locks.ThreadIsOneAtATime | src/SerfChannel.h:98-124 | no thread holds two mutexes or re-enters one, across waits, callbacks and self-removal |
| Locks.CallTakes | src/SerfChannel.h:98-107 | a call takes its channel's mutex once and once more per wakeup, no other channel's, and the client's to send and to end |
| Locks.TurnTakes | src/SerfIoThread.cpp:138-152 | a reply takes the client's mutex for the lookup and again for the erase, and then its channel's; a record takes it for the lookup, and again to end a query |
| Locks.NoCircularWait | src/SerfIoThread.cpp:138-254 | after any steps of any threads a lock's holder can go on and is not the thread that waits for it |
| Locks.AllCanFinish | src/SerfChannel.cpp:55-60 | from every reachable state there is an order in which all threads finish |

## Left out

- Sockets, `select`, `fcntl`, addresses and `errno`: reads are an arbitrary series of polls and chunks, a send works or not, and the `errno` test after an empty read is a free choice that changes nothing.
- Real time: the five-second wait may time out at any wake-up; no liveness is proved beyond the end of the loops and the absence of deadlock.
- msgpack-c itself: the decoder is any self-delimiting function from bytes to objects.
- Member records: whether an object converts to a `Member` is decided field by field, but a listener is told the objects, not the structs, and `operator==` of `Member` is not used.
- The other `SerfClient` calls repeat the shapes of `Join` and `Command`; `Monitor`, `Stream` and `Query` are one method, with the kind of listener as its parameter.
- Client.SerfClient.Ask: where the counter stands after a call that has waited is not stated, since the sends of other threads take it on meanwhile; `SendData` and `OtherThreads` state it for their own steps, and `Ask` for a call that does not wait.
- Client.SerfClient.Command: the same holds here.
- Client.SerfClient.Await: a call's own critical sections fall between two rounds of the I/O thread; those that fall into a turn are, for other calls, in the schedule, and for the call's own turn the subject of the step machine.
- IoThread.SerfIoThread.DecodeLoop: which listener channels are deleted is stated by each removal and for the numbers in use, not as a function of the whole schedule; over runs `ProtocolHeap` settles it.
- IoThread.SerfIoThread.ProcessRpc: the class is not told that a channel may be destroyed while it is served; that is the subject of `ProtocolTheorems.FaultsExactlyWhen`.
- Splits.LeavesTheSameExactlyWhen: the schedule is compared message by message, so the turn that a body gets of its own when no channel takes it, and that the stream in one does not have, is one in which the other threads are idle.
- Locks.AllCanFinish: joining the I/O thread in `Close` is not a lock and is not modelled.
- Calling `Connect` twice, `IsConnected` after `Close`, and `Stop` on a number that is not one of the caller's subscriptions.
- The printers, `dumpPayload`, `printMsgPack`, the command line of the example, and the build files.
