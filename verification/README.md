# HTTP/2 benchmark client: model and proofs

This project models the hard core of an HTTP/2 benchmark suite in Dafny and proves what it promises.

- **The client connection** (`ConnState`, `ClientConn`, `Protocol`). The class `ClientConn` runs every critical section in
  place and is proved equal, section by section, to a pure function of the state its mutex guards. `Protocol` interleaves
  those functions: any number of `Do` and `WriteBatch` callers and one reader, each advancing by one critical section, one
  write or one channel receive at a time, in any order, with any frames from the server. A write may fail at any step.
  The condition variable is a count of broadcasts; a caller that sleeps remembers the count it slept at.
- **The invariant** (`Slots`, `Wakeups`, `Ledgers`, `Wire`, `Results`, `Demux`, `Invariant`, `Runs`): what each component
  keeps, and that all 24 kinds of step keep all of it, hence every reachable state has it.
- **The record of a run** (`History`, `Sent`, `SentSteps`, `Peer`, `Spoken`, `Calls`, `Origins`): which writes failed, what
  the server said on and of each stream, what each caller asked for and was told, what was granted and set, all read off
  the steps of the run and not off the program's state, and what every run keeps between the two.
- **The promises** (`Theorems`): statements over every run. `Gaps` shows where the code does less than its comments say:
  for each, a run (built in `Examples`) that shows it, and the exact condition under which the stronger reading holds.
- **The encoder** (`Bytes`, `Frames`, `Hpack`, `StaticTable`, `Requests`, `Segments`): the byte formats, against a
  reference frame parser and a reference HPACK decoder with a dynamic table.
- **The load generators** (`Redial`, `Schedule`, `InFlight`): state machines over every schedule of the workers.
- **Three algorithms** (`Calendar`, `Ports`, `Ranking`).

Where the code and its comments differ, the model follows the code:

- `WriteBatch` checks the initial window and the stream limit in one critical section and opens streams in a later one
  (clientconn.go:318, 343-350). The ledgers and the admission-time bounds hold; "never over the limit now in force" does
  not, and `Gaps.WithinLimitExactly` says when it does (`Gaps.LoweredWindowRun`, `Gaps.OverLimitIsReachable`).
- After GOAWAY `writeStream` stops sending a body even for a stream that is still open (clientconn.go:271-276), so the
  comment there, that the stream has ended, is not so (`Gaps.GoAwayStrandsARun`, `Gaps.EarlyStop`,
  `Gaps.StrandedExactly`).
- A result without an error can have status 0 (`Gaps.DataAloneHasNoStatus`, `Gaps.InformationalHasNoStatus`,
  `Gaps.StatusZeroExactly`).
- `active` counts unanswered streams: an answer that ends early frees the slot although the request has not ended
  (`Gaps.EarlyAnswerFreesSlot`, `Gaps.OpenUncountedExactly`).
- `WriteBatch` with n = 0 on a fresh connection fails it, because `2*(n-1)` wraps in 32 bits (`Gaps.FirstBatchFailsWhenEmpty`).
- The cap on unanswered batches is under five batches, not four; after k failed writes it is under 4 + k between writes
  and 5 + k while one is in progress, and never more than one over the stream limit (`InFlight.InFlightCap`,
  `InFlight.CapReachedExactly`).
- `rankedBefore` is not a strict weak order for rows with unequally many keys (`Ranking.UnequalLengthsTangle`).

## Model

| member | source | states |
|---|---|---|
| Theorems.NoLostWakeup | benchcli-go/protocol/clientconn.go:190-193 | in every reachable state a caller asleep and not broadcast to since still has its wait condition true: no error and no free slot, or no error, its stream open and no window |
| Theorems.ExactlyOneResult | benchcli-go/protocol/clientconn.go:609-642 | streams opened = results told + ends about to be told + streams in the map; every identifier ever numbered is in exactly one of these places, and ends there once |
| Theorems.OneResultPerDo | benchcli-go/protocol/clientconn.go:203-211 | a Do is told of at most one end, returns exactly that result, and a Do that never opened a stream returns an error and is told of none |
| Calls.RefusedDo | benchcli-go/protocol/clientconn.go:194-199 | a Do refused before it had a stream returns the connection's error, status 0 and no body |
| Calls.WriteBatchReturns | benchcli-go/protocol/clientconn.go:310-362 | WriteBatch returns how many of its streams have HEADERS on the wire, all n or none; 0 without an error exactly when it found no room on a connection without an error, or wrote an empty batch; the write's error after a failed write, and otherwise the connection's |
| Calls.RunStories | benchcli-go/protocol/clientconn.go:184-362 | over every run, each caller, numbered in order of arrival, is where the steps of its own call have brought it |
| Theorems.FailureIsFinal | benchcli-go/protocol/clientconn.go:366-371 | over the rest of every run, an error once set never changes and no stream enters the map again |
| Origins.FailedBecause | benchcli-go/protocol/clientconn.go:397-407 | over every run, the connection's error is the first thing that went wrong in its steps: GOAWAY, the reader's exit with what ended its reading, or a call that found no identifier left |
| Theorems.EmptyAfterExit | benchcli-go/protocol/clientconn.go:397-418 | once the reader has exited the map is empty for good |
| Theorems.NobodyStuckAfterExit | benchcli-go/protocol/clientconn.go:402-416 | once the reader has exited and told every end, each caller that has not returned has a step it can take, or waits for the holder of wmu, which has one |
| Theorems.EverybodyReturns | benchcli-go/protocol/clientconn.go:402-416 | after the reader has exited, over every continuation without new calls the steps taken and the steps left add up to no more than were left: at most three for each caller and one for each end to be told |
| Theorems.EndsReturned | benchcli-go/protocol/clientconn.go:203-211 | when nothing but a new call can happen after the exit, every caller has returned |
| Theorems.GoAwayRefusesAbove | benchcli-go/protocol/clientconn.go:505-523 | GOAWAY ends every stream above LastStreamID at once with the connection's error, and leaves every other stream as it was |
| Theorems.ExitEndsTheRest | benchcli-go/protocol/clientconn.go:402-416 | the reader's exit ends every stream still open, each with the connection's error wrapped as closed |
| Theorems.EndIsReturned | benchcli-go/protocol/clientconn.go:203-211 | whatever ended a Do's stream, every continuation in which the Do returns gives it that end's result |
| Theorems.ResetIsReturned | benchcli-go/protocol/clientconn.go:463-467 | once RST_STREAM has ended a Do's stream, every continuation in which the Do returns gives it an error with that code |
| Theorems.StreamLedger | benchcli-go/protocol/clientconn.go:478-492 | on every open stream sendWindow + octets taken = the initial window the SETTINGS frames of the run leave + its WINDOW_UPDATEs in the run |
| Theorems.TakenIsSent | benchcli-go/protocol/clientconn.go:241-292 | the octets taken on a stream are those of it on the wire and those its caller is about to write, exactly unless a write on it failed, and then no fewer |
| Theorems.ConnectionLedger | benchcli-go/protocol/clientconn.go:294-303 | connSendWindow + DATA on the wire + octets taken and not written = 65535 + the connection's WINDOW_UPDATEs in the run, never negative, so DATA sent never exceeds the window given |
| Theorems.ReceiveWindow | benchcli-go/protocol/clientconn.go:525-534 | the server's window is 2^30 less the DATA of the run plus the updates sent, which is 2^30 less recvConsumed, stays above 2^29 while frames are read, and every WINDOW_UPDATE is nonzero, fits 31 bits and restores exactly what was used |
| Origins.ServerSaid | benchcli-go/protocol/clientconn.go:448-494 | over every run, the grants, the DATA counted, the initial window and the limit in force are those the steps say |
| Theorems.SlotAccounting | benchcli-go/protocol/clientconn.go:88 | active = streams in the map + outstanding reservations, at most the largest limit the run ever put in force, at most 2^20 |
| Theorems.UntoldWithinLimit | benchcli-go/protocol/clientconn.go:318-323 | streams opened and not told are at most the largest limit ever in force, itself at most 2^20, and those out of the map on their way to be told |
| Theorems.AdmissionWithinLimit | benchcli-go/protocol/clientconn.go:318-323 | every step that raises active leaves it within the limit then in force |
| Theorems.AdmittedExactly | benchcli-go/protocol/clientconn.go:313-323 | over every run, a batch is admitted exactly when there is no error, its streams fit under the limit beside those open and reserved, its bodies fit in what was granted and not taken, and one fits in a new stream's window |
| Theorems.StreamIds | benchcli-go/protocol/clientconn.go:221-259 | HEADERS reach the wire on strictly increasing odd identifiers, none above 2^31-1 |
| Theorems.WireReadsBack | benchcli-go/protocol/clientconn.go:249-259 | the octets a connection has written parse back to its frames exactly when no header block is 2^24 octets or more |
| Origins.FramesWritten | benchcli-go/protocol/http2.go:85-103 | over every run, every frame on the wire has its type, flags and stream as section 6 of RFC 9113 has them, HEADERS with END_HEADERS; and the SETTINGS and PING frames are exactly the acknowledgements owed, in order, each PING with the octets it answers |
| Origins.EverySettingsAcknowledged | benchcli-go/protocol/clientconn.go:495-500 | each SETTINGS frame read is acknowledged once before anything else is read |
| Theorems.StreamCarriesRequest | benchcli-go/protocol/clientconn.go:249-290 | every stream serves exactly one call, and for every sequence of grants its frames are HEADERS and a prefix of the body of the request that call was made with, in DATA of at most 16384 octets, END_STREAM on the last frame exactly when the body is complete, and then the same block and body as AppendTo |
| Theorems.SendLoopProgress | benchcli-go/protocol/clientconn.go:266-290 | each round of the send loop that is granted window sends at least one octet and no more than is left |
| Spoken.EndedFrames | benchcli-go/protocol/clientconn.go:421-474 | over every run, what an ended stream heard is exactly the DATA frames and header blocks the steps of the run carry for its identifier between its opening and its end |
| Theorems.Demultiplexing | benchcli-go/protocol/clientconn.go:421-474 | a stream's result is a function of those frames, of why it ended and of the keep flag of the call it serves, with status, length, body and error, NoStatus or BodyTooLarge, whichever came first, as they describe |
| Theorems.SameFramesSameResult | benchcli-go/protocol/clientconn.go:525-607 | in any two runs, streams sent the same frames that ended alike and serve calls with the same keep flag have the same result |
| Theorems.CleanAnswer | benchcli-go/protocol/clientconn.go:525-607 | without an error, status is the first of 200 or more, N the sum of the DATA lengths, and the body their concatenation, at most 64 MiB, when the call keeps it, and empty otherwise |
| Runs.StepKeeps | benchcli-go/protocol/clientconn.go:184-642 | every step of every caller and of the reader keeps the whole invariant |
| Runs.Reachable | benchcli-go/protocol/clientconn.go:117-142 | every state any run reaches from a new connection satisfies the invariant |
| Demux.ResponseOf | benchcli-go/protocol/clientconn.go:543-606 | for every sequence of DATA frames and header blocks on a stream, the response the reader builds has the closed form above |
| Demux.FragmentsJoin | benchcli-go/protocol/clientconn.go:579-590 | a header block cut into CONTINUATIONs leaves the status it would leave whole |
| Demux.HeardIgnoresOthers | benchcli-go/protocol/clientconn.go:536-542 | frames of other streams can be deleted from the trace without changing what a stream hears |
| Slots.BatchFitsExactly | benchcli-go/protocol/clientconn.go:331-342 | for 1 to 2^20 streams the 32-bit test admits a batch exactly when its last identifier is at most 2^31-1, and the numbering does not wrap |
| Slots.EmptyBatchWraps | benchcli-go/protocol/clientconn.go:331 | an empty batch on a fresh connection fails that test |
| Gaps.BatchStreamWindow | benchcli-go/protocol/clientconn.go:343-350 | a fresh batch stream has a negative window exactly when the initial window is by then below its body's length |
| Gaps.LoweredWindowIsOverrun | benchcli-go/protocol/clientconn.go:318-350 | SETTINGS between admission and numbering brings that about, in every run in which a batch is admitted |
| Gaps.LoweredWindowRun | benchcli-go/protocol/clientconn.go:318-350 | a run of three steps in which every stream of the first batch is opened with a negative window, for every batch admitted and every initial window below its bodies |
| Gaps.LimitCanBeLowered | benchcli-go/protocol/clientconn.go:478-494 | after any SETTINGS frame active is within the limit exactly when it was at most the last limit the frame names, clamped, or the old one |
| Gaps.OtherStepsStayWithin | benchcli-go/protocol/clientconn.go:190-201 | from a reachable state within the limit no other step leaves it |
| Gaps.WithinLimitExactly | benchcli-go/protocol/clientconn.go:488-489 | a run is within the limit in force at every moment exactly when no SETTINGS frame in it asks for fewer streams than are active when it comes |
| Gaps.OverLimitIsReachable | benchcli-go/protocol/clientconn.go:318-323 | two steps from a new connection leave more streams than the limit |
| Gaps.EarlyStop | benchcli-go/protocol/clientconn.go:261-277 | over every run, a Do past its send loop whose stream is open and whose request is not whole on the wire has a failed connection or a failed write of its own behind it |
| Gaps.StrandedExactly | benchcli-go/protocol/clientconn.go:266-277 | over every run, a Do found sending on an open stream can give up exactly when the connection has failed, and what is on the wire is then a proper prefix of its body |
| Gaps.GoAwayStrandsBodies | benchcli-go/protocol/clientconn.go:271-276 | so after GOAWAY every Do sending on a spared stream stops, while its stream is open and its body incomplete on the wire |
| Gaps.GoAwayStrandsARun | benchcli-go/protocol/clientconn.go:271-276 | a run in which that happens, no write having failed, for every body over the first window |
| Gaps.DataAloneHasNoStatus | benchcli-go/protocol/clientconn.go:554-556 | for every request and payload, a run in which DATA alone ends the stream with no error and status 0 |
| Gaps.InformationalHasNoStatus | benchcli-go/protocol/clientconn.go:594-605 | for every request and status from 100 to 199, a run in which a header block with END_STREAM does |
| Gaps.StatusZeroExactly | benchcli-go/protocol/clientconn.go:594-602 | over every run, a result without an error has status 0 exactly when no header block of its stream has a status of 200 or more |
| Gaps.EarlyAnswerFreesSlot | benchcli-go/protocol/clientconn.go:626-630 | for every body over the first window, a run that ends with one stream open by section 5.1.2 of RFC 9113, its request unended on the wire, and active 0 |
| Gaps.OpenUncountedExactly | benchcli-go/protocol/clientconn.go:609-630 | over every run, a stream is open by the standard and out of the map exactly when it was answered in full, its request is not ended on the wire, and it was neither reset nor refused since |
| Gaps.ActiveCoversOpenExactly | benchcli-go/protocol/clientconn.go:85-88 | the map holds every open stream exactly when there is no such stream, and then active is at least their number |
| Peer.RunPeer | benchcli-go/protocol/clientconn.go:421-474 | over every run, a stream left the map for the reason the server gave, and none the server ended, reset or refused is still in it |
| SentSteps.RunSent | benchcli-go/protocol/clientconn.go:241-292 | over every run, every caller's account of what it has sent agrees with the wire |
| Gaps.FirstBatchFailsWhenEmpty | benchcli-go/protocol/clientconn.go:331-335 | the first batch on a connection fails it exactly when the batch is empty |
| ClientConn.ClientConn.constructor | benchcli-go/protocol/clientconn.go:117-130 | a new connection starts in the initial state |
| ClientConn.ClientConn.FailLocked | benchcli-go/protocol/clientconn.go:366-371 | the first error is kept, and everybody is woken |
| ClientConn.ClientConn.AcquireSlot | benchcli-go/protocol/clientconn.go:190-201 | Do's first section refines Slot and TakeSlot |
| ClientConn.ClientConn.TakeWindowLocked | benchcli-go/protocol/clientconn.go:296-303 | takes the most both windows allow off both |
| ClientConn.ClientConn.NumberStream | benchcli-go/protocol/clientconn.go:222-247 | writeStream's first section refines Number, both refusals included |
| ClientConn.ClientConn.MoreWindow | benchcli-go/protocol/clientconn.go:267-279 | the loop's section refines Window and TakeMore |
| ClientConn.ClientConn.ReserveBatch | benchcli-go/protocol/clientconn.go:312-323 | WriteBatch's first section refines Admit and Reserve |
| ClientConn.ClientConn.OpenStreams | benchcli-go/protocol/clientconn.go:330-351 | its second section, loop included, refines OpenBatch in 32-bit arithmetic |
| ClientConn.ClientConn.TakeStream | benchcli-go/protocol/clientconn.go:611-623 | removes a stream once, with its slot, and wakes waiters |
| ClientConn.ClientConn.ShiftStreams | benchcli-go/protocol/clientconn.go:485-487 | shifts every open stream's window by the difference, in whichever order the map is walked |
| ClientConn.ClientConn.OnSettings | benchcli-go/protocol/clientconn.go:476-494 | applies each setting in turn |
| ClientConn.ClientConn.OnWindowUpdate | benchcli-go/protocol/clientconn.go:448-456 | adds to the connection's window, to an open stream's, or to nothing |
| ClientConn.ClientConn.OnGoAway | benchcli-go/protocol/clientconn.go:505-518 | collects each stream above the last exactly once, in whichever order the map is walked, and gives back their slots |
| ClientConn.ClientConn.ExitReader | benchcli-go/protocol/clientconn.go:402-411 | empties the map and gives back its slots |
| ClientConn.ClientConn.CountReceived | benchcli-go/protocol/clientconn.go:528-534 | a WINDOW_UPDATE for exactly what was used goes out once half the window is, and the count is that of AccountsData in the state machine |
| ClientConn.ClientConn.DeliverData | benchcli-go/protocol/clientconn.go:536-558 | refines OnData on a known stream and leaves everything alone on another |
| ClientConn.ClientConn.StartHeaders | benchcli-go/protocol/clientconn.go:563-569 | leaves the reader's block state as StartsBlock of the state machine does, from any state with this connection |
| ClientConn.ClientConn.OnHeaderBlock | benchcli-go/protocol/clientconn.go:571-607 | refines LastStatus over a fragment, and OnBlock at the block's end |
| Frames.ParseEncodeAll | benchcli-go/protocol/http2.go:75-121 | the reference parser reads back every sequence of frames whose lengths and identifiers fit |
| Frames.ReadBackExactly | benchcli-go/protocol/http2.go:75-121 | and no other |
| Frames.UnfitIsNotReadBack | benchcli-go/protocol/http2.go:75-78 | a frame whose length or identifier does not fit is never read back as itself |
| Frames.AppendData | benchcli-go/protocol/http2.go:107-121 | the splitting loop appends exactly the encoding of the DATA frames |
| Frames.DataFramesCarry | benchcli-go/protocol/http2.go:105-121 | those frames carry the data whole, in order, END_STREAM on the last alone and only when asked |
| Frames.U32RoundTrip | benchcli-go/protocol/http2.go:80-83 | big-endian 32-bit numbers read back |
| Hpack.IntRoundTrip | benchcli-go/protocol/http2.go:162-176 | HPACK integers are self-delimiting and invertible for every prefix size, first octet and value |
| Hpack.AppendInt | benchcli-go/protocol/http2.go:164-176 | the integer loop appends that code |
| Hpack.BlockDecodes | benchcli-go/protocol/http2.go:133-160 | a header block decodes to exactly the intended fields from any dynamic table, and leaves it unchanged |
| StaticTable.BlockRoundTrip | benchcli-go/protocol/http2.go:133-151 | the same against the static table of appendix A of RFC 7541 |
| StaticTable.BlockSays | benchcli-go/protocol/http2.go:133-151 | octet for octet: the decoded fields are method, scheme http, path and authority, and, exactly for a body or POST or PUT, content-type application/octet-stream and a content-length whose digits say the length of the body |
| StaticTable.RepeatsDecodeAlike | benchcli-go/protocol/http2.go:127-132 | any number of repeats on one connection decode alike |
| Requests.NewRequest | benchcli-go/protocol/http2.go:191-204 | the template is the request's frames on stream 0, with the place of every identifier |
| Requests.AppendTo | benchcli-go/protocol/http2.go:210-217 | patching the template gives exactly the bytes of encoding HEADERS and DATA on that stream from scratch |
| Requests.RequestFrameIs | benchcli-go/protocol/http2.go:94-121 | every request frame for frame: type 1 with flags 5 or 4 and the block, then pieces of 16384 octets of the body in frames of type 0, flags 0, and 1 on the last |
| Requests.RequestOctets | benchcli-go/protocol/http2.go:75-121 | octets 3 and 4 of each frame as written: 1 and 5 or 4, then 0 and 0, and 0 and 1 for the last |
| Requests.Repeat | benchcli-go/protocol/http2.go:249-255 | n of those, on identifiers stepping by two in 32 bits |
| Requests.RequestReadBack | benchcli-go/protocol/http2.go:94-121 | the parser recovers block, body and identifier exactly when the block is under 2^24 octets and the identifier within 31 bits |
| Requests.RepeatReadBack | benchcli-go/protocol/http2.go:248-255 | a batch reads back as its requests exactly when the block is under 2^24 octets and every identifier, counted by two in 32 bits, within 31 bits |
| Segments.SegmentationIndependence | benchcli-go/protocol/clientconn.go:249-290 | however a body was cut up, a stream that ended carries what AppendTo writes |
| Redial.Conn.Redial | benchcli-go/connections/connection.go:42-55 | a connection somebody replaced is left alone; the broken one is closed, and replaced when dialing works |
| Redial.SingleReplacement | benchcli-go/connections/connection.go:40-55 | over every schedule of workers, no healthy connection is closed and each broken one is replaced at most once; that broken is for good is Theorems.FailureIsFinal |
| Redial.UsesOnlyHealthy | benchcli-go/benchecho/benchecho.go:263-269 | over every schedule, a worker uses the connection it loaded exactly when that had not failed when it looked, and otherwise goes to redial it |
| Redial.DialsAfresh | benchcli-go/connections/connection.go:48-54 | a dial that works leaves the handle on a new connection that has not failed, and on none that was replaced before |
| Schedule.FillQueue | benchcli-go/benchecho/benchecho.go:236-241 | each connection is in the queue once per stream, round by round |
| Schedule.TokensConserved | benchcli-rust-common/src/bench.rs:160-186 | over every schedule a connection's entries in the queue and its calls in flight make what it started with |
| Schedule.QueueNeverEmpty | benchcli-rust-common/src/bench.rs:156-178 | a task taking from the queue finds it empty exactly when there were no tokens at all |
| Schedule.EveryTicketOnce | benchcli-rust-common/src/calc.rs:48-75 | when every task has stopped, success + failed = times, the queue holds the tokens it started with, and each task's error counts sum to its failures |
| Schedule.TalliesCount | benchcli-rust-common/src/calc.rs:64-76 | over every schedule, the tallies are the numbers of calls that succeeded, that failed, and that failed with each error |
| Schedule.Report | benchcli-rust-common/src/calc.rs:78-91 | the merged report has exactly those numbers, and success + failed = times |
| Schedule.FirstInFirstOut | benchcli-rust-common/src/bench.rs:165-178 | connections are taken in the order they were put in |
| Schedule.EveryScheduleEnds | benchcli-rust-common/src/calc.rs:60-75 | every schedule is at most 3 * times steps and one for each task long |
| Schedule.OnlyQuietEnds | benchcli-rust-common/src/bench.rs:165-178 | with a connection to take, nobody panics and a schedule can go on exactly until every task has stopped |
| Schedule.AddErrors | benchcli-rust-common/src/calc.rs:83-85 | error counts add up key by key and in total |
| Schedule.Merge | benchcli-rust-common/src/calc.rs:78-89 | the merged tally is the sum of the tasks', error counts summing to failed |
| InFlight.BatchSize | benchcli-go/protocol/http2.go:223-232 | batch times tick is the rate, and the batch is the largest divisor of it within the byte budget, or 1 |
| InFlight.ChoosePace | benchcli-go/benchrate/benchrate.go:296-306 | the batch asked for, when it divides the rate, or else the largest divisor of it within the byte budget, or 1; refused exactly when ValidateBatch refuses it |
| InFlight.InFlightCap | benchcli-go/benchrate/benchrate.go:324-340 | whenever responses arrive, at most 5*batch-1 streams are unanswered until a write fails; after k failed writes (4+k)*batch-1 between writes and (5+k)*batch-1 while one is in progress; at most one over the stream limit; and until a write fails no more are answered than counted as sent between writes |
| InFlight.CapReachedExactly | benchcli-go/benchrate/benchrate.go:326-333 | for every batch, number of failed writes and stream limit, some run has that many unanswered exactly when that is at most one over the limit |
| InFlight.AnsweredCanPassSent | benchcli-go/benchrate/benchrate.go:117-120 | between writes more can be answered than was counted as sent, from one failed batch on, exactly when the stream limit admits a batch |
| InFlight.DealTeams | benchcli-go/benchrate/benchrate.go:136-139 | each connection is in one team, once, so it has one writer |
| Calendar.CivilValid | benchcli-rust-common/src/lib.rs:43-52 | every integer day count gives a valid proleptic Gregorian date |
| Calendar.CivilNext | benchcli-rust-common/src/lib.rs:43-52 | the next day count gives the next calendar date |
| Calendar.CivilIsDistance | benchcli-rust-common/src/lib.rs:42-52 | the date of a day count is that many days after, or before, 1970-01-01 |
| Calendar.CivilOneToOne | benchcli-rust-common/src/lib.rs:43-52 | every valid date is the date of exactly one day count |
| Ports.MergeLoop | script/config.sh:153-158 | the awk loop prints the merge of its input |
| Ports.MergePortRanges | script/config.sh:152-159 | the result is a list of the same ports in sorted, disjoint, non-touching ranges |
| Ports.CanonicalUnique | script/config.sh:149-151 | that form is unique for a set of ports |
| Ports.PrintReadBack | script/config.sh:153-154 | a printed list reads back as the ranges printed |
| Ports.SameTextIffSamePorts | script/config.sh:152-159 | two lists merge to the same text exactly when they have the same ports |
| Ports.MergeIdempotent | script/config.sh:152-159 | merging a merged list changes nothing |
| Ports.ReservedTest | script/env.sh:130-134 | the string comparison succeeds exactly when every wanted port is reserved already, an empty current list included |
| Ranking.RankedBefore | benchcli-go/report/reporter.go:106-113 | true exactly when the keys agree up to some position and are bigger there |
| Ranking.RankingUnique | benchcli-go/report/reporter.go:164-171 | at most one permutation is descending on the keys with ties in input order |
| Ranking.RankingExists | benchcli-go/report/reporter.go:172-179 | one exists exactly when no row ties with an earlier and with a later one of which the later outranks the earlier |
| Ranking.EqualLengthsUntangled | benchcli-go/report/reporter.go:106-113 | which rows with equally many keys never do |
| Ranking.UnequalLengthsTangle | benchcli-go/report/reporter.go:106-113 | and rows with unequally many can |
| Ranking.SortReports | benchcli-go/report/reporter.go:172-179 | the rows end as a permutation of what they were, the ranking when there is one; another order leaves them alone |
| Ranking.PercentRange | benchcli-go/report/reporter.go:124-133 | between 0 and 100, and 100 exactly for a value at least the positive best |
| Ranking.PercentMonotone | benchcli-go/report/reporter.go:124-133 | a bigger value never reads less |
| Ranking.PercentExact | benchcli-go/report/reporter.go:131-137 | a whole percentage of the best reads as that percentage |
| Ranking.PercentFloors | benchcli-go/report/reporter.go:131-137 | between whole percentages it is floored, but for a billionth of a percent |
| Ranking.PercentText | benchcli-go/report/reporter.go:124-133 | printed in digits and a percent sign |
| Ranking.BestReads100 | benchcli-go/report/reporter.go:115-133 | a row reads 100% exactly when its value is positive and no other is bigger |
| Ranking.WithPercent | benchcli-go/report/reporter.go:146-162 | only the column changes, each cell to its own text and its own row's percentage of the best, each right-aligned, all of one width |

## Left out

- A failed write puts nothing on the wire; a partial write before the connection dies is not modelled. A later write of another caller may still succeed.
- The windows are unbounded integers: overflow of the 64-bit windows by a server that sends absurd WINDOW_UPDATEs is not modelled.
- TCP, deadlines, blocking writes, timers, buffer pools and the reuse of stream objects: a stream is a fresh value, `Close` is a failing read.
- The framer and HPACK decoder libraries: the reader is given frames in legal order, and each header block is the list of numeric `:status` values decoded in it; a frame or block they refuse is `ReadFails`.
- The reader's lookup of a stream and its later removal are one step in `HandleData` and `EndBlock`; only the reader removes streams, so no other step can come between with effect.
- `settingsSeen`, `readerDone`, the accessors and `Close`: only channels to wait on.
- Huffman-coded strings in the reference HPACK decoder, which the client never writes.
- Send windows in the in-flight model: the server may make them as wide as it likes, and a batch may be skipped for want of window at any time.
- Whether a batch can ever be sent: `checkLimits` does not compare a batch's octets with the connection window, so there is no such promise.
- `WriteBatch` with a negative n: the callers pass at least 1.
- Guards in `Protocol.Enabled` on how much of a body has been taken exclude no run: `Wire.Progress`, part of the invariant, implies them.
- The Rust multiplexing benchmark's `in_flight` counter and `Limiter::wait_n`; its `batch_size` is the loop of `InFlight.BatchSize`.
- Latency percentiles, `tps`, `EER`, JSON, console text, flags, process sampling and control requests: presentation, floating point or I/O.
- The retry loops that dial connections, and the framework servers.
- Calendar: the time of day and the formatting of the stamp; 64-bit overflow of day counts no clock reaches.
- Ports.MergePortRanges: takes lists in the format of net.ipv4.ip_local_reserved_ports, which has neither leading zeros nor ranges with their ends swapped; what awk would print for anything else is not modelled. `sort` is its contract, computed by insertion.
- Ports.SameTextIffSamePorts: for lists in that format.
- Ports.MergeIdempotent: for lists in that format.
- Ports.ReservedTest: for lists in that format.
- Ranking.SortReports: the library's stable sort is modelled by insertion; by `Ranking.RankingUnique` any stable sort that keeps its contract gives the same rows. Keys are given, not read by reflection.
- Ranking.PercentRange: over the reals; the rounding of floating-point division is not modelled, nor are NaN and infinities.
