# Oreka capture and storage: a verification model

Oreka records calls. Capture threads turn packets into audio chunks and events, hand them to tapes,
and one thread writes the tapes to disk; around this core sit message serializers, binary file and
packet formats, and a few stateful components. This project models that core in Dafny and proves what
it keeps, on every input, run or interleaving.

Each file is one module. Value types and specification functions come first; classes and methods in the
form of the original code are proved against them; lemmas state what the functions are for. Automatic
induction is switched off on every lemma, so each proof names the recursive step it uses.

| file | part of Oreka |
|---|---|
| AudioTapes, HandOff, ImmediateProcessing, ThreadSafeQueues | tapes, the hand-off to the disk thread as interleaved steps, the semaphore and the bounded queue |
| StreamCutting, SipFraming, StreamTable, SipTcp | SIP over TCP: resumable framing, the table of stored streams |
| Texts, Escapes, Serializers, KeyValueTexts, UrlSerializers, SingleLineSerializers, NestedSerializing | the message serializers and their nesting |
| AudioChunks, ByteOrder, Sequences, MediaChunkFiles, DirectionMarks | chunks, shared helpers, the media chunk file, keep-direction marks applied to it |
| OggOpusFiles, OpusComments, OpusHeaders | 160-sample reframing, the OpusTags and OpusHead packets |
| Tilings, Iax2 | self-delimiting items; IAX2 information elements parsed in place |
| LruMaps | the insertion-ordered map |
| CapturePorts | voice-activity capture |

Check everything with `dafny verify dfyconfig.toml`.

## Where the code does not do what one would expect

Each of these is stated in a lemma, with the exact condition where there is one.

- The end of `Write` tests `m_shouldStop` some time after its last look at the queue. A chunk appended in
  between, even by a thread that has long returned from AddAudioChunk and Push, or appended later by a
  thread already let in, stays in the stopped tape for ever. `HandOff.NothingLeftBehind` says exactly
  when, `HandOff.CalmStopLosesNothing` what a caller can rely on, and
  `HandOff.AcceptedChunkStaysBehind` and `LateChunkStaysBehind` are runs.
- A request to stop is acted on exactly if at some moment it is set, the party filter does not reject the
  tape and someone is on the way to the end of its `Write`. So a forced stop, which pushes nothing, works
  on a tape already queued and not on an idle one, and a stop event is not acted on while the filter rejects
  (`HandOff.StoppedIffHeard`, `ForcedStopHeardIff`, `StopEventHeardIff`;
  `ForcedStopAloneNeverStops` is a run).
- A tape that some `Write` met while the party filter rejected it never gets a file. Once the filter lets
  it through, the next `Write` with chunks queued goes through the null reference, and no other does
  (`AudioTapes.FaultIff` over runs, `FaultExactly` for one call; `FilteredThenPassedFaults` is a run).
- A Content-Length that is no number leaves the SIP loop with an undefined value, and one so negative that
  it does not point behind the start of its message turns the loop back. It may then go round for ever,
  leave the buffer at its front, or return after handing messages on again. `SipFraming.ReturnsIff` says
  exactly when it returns, `NegativeLengthStandsStill` and `TurnsBackAndReturns` are inputs;
  `SipFraming.ReadsToEndIff` has the condition on the headers under which it only goes forwards.
- The search for Content-Length ignores case but for its first letter, which must be a capital unless it is
  the very first byte searched (`SipFraming.LengthFoundIff`).
- A length scanned up to the very end of the buffer can change with the next packet
  (`SipFraming.SafeFromContinuationIff`, `CutChangesMessages`; `AnyCuttingIff` for whole streams).
- CSV lists lose outer white space and an empty last element; URL values are cut at NUL; single-line
  output loses unescaped white space at its end (the `...SurvivesIff` lemmas).
- Two short chunks in a row make the Opus reframer count its carry twice. Then it encodes stale samples
  or, worse, copies a negative number of bytes (`OggOpusFiles.ExactIff`, `ShortChunksMakeUpSamples`,
  `ShortChunksLeaveBuffer`); a second Close repeats the carry.
- The stream map test of `opus_header_parse` lets one index more through than section 5.1.1 of RFC 7845
  allows: it compares with "greater than" where the largest valid index is the sum minus one. The model
  follows the code (`OpusHeaders.AcceptedConformsIff`).
- A keep-direction event that reads the clock twice across a second boundary makes two marks overlap
  (`DirectionMarks.LatestGovernsIff`).
- `InsertPair` on a full map drops the oldest entry even when the key is there already
  (`LruMaps.IdealIff`).
- After a plugin stop in voice-activity mode nothing is recorded until a silence longer than the hold-on
  time has ended the attached tape (`CapturePorts.StoppedTapeHearsNothing`, `LoudButUnrecorded`; exactly
  what is recorded is in `CapturePorts.EveryRun`).

## Model

| member | source | states |
|---|---|---|
| `HandOff.NothingLeftBehind` | orkbasecxx/ImmediateProcessing.cpp:35-78 | main result, over every run from the start that has come to rest: no tape is queued; a tape is stopped if and only if its stop request was attended at some moment (set, not rejected by the party filter, someone on the way to the end of its Write); a tape still holds chunks if and only if the end of Write that stopped it found its queue not empty, or, with a batch size above 0, a thread still between AddAudioChunk's test and its append |
| `HandOff.AlwaysSafe` | orkbasecxx/ImmediateProcessing.cpp:35-78 | every interleaving of any number of capture threads with the disk thread keeps the whole invariant: a tape with chunks is queued, about to be pushed or being drained; m_isQueued holds exactly of the tapes in the deque and each is there once; the semaphore balance |
| `HandOff.StepKeepsSafe` | orkbasecxx/ImmediateProcessing.cpp:35-128 | each single step (unlocked read of m_state, locked append, enqueue, release, acquire, pop, one round of Write, its end, the batch question) keeps that invariant |
| `HandOff.FlagKeeps` | orkbasecxx/ImmediateProcessing.cpp:59-78 | m_isQueued is set under the mutex exactly while the tape is in the deque, at most once |
| `HandOff.PermitsKeep` | orkbasecxx/ImmediateProcessing.cpp:35-78 | permits plus a consumer past acquire plus a push not yet released equal the deque length plus duplicate pushes minus empty pops; empty pops never exceed duplicate pushes |
| `HandOff.ChunksKeep` | orkbasecxx/AudioTape.cpp:181-210 | no step strands a chunk: a non-stopped tape that holds chunks is going to be drained |
| `HandOff.StopsKeep` | orkbasecxx/AudioTape.cpp:361-377 | an attended stop request stays attended until the tape is stopped, whatever step comes |
| `HandOff.StoppedIffHeard` | orkbasecxx/AudioTape.cpp:227-256 | from any safe state: a tape not yet stopped is stopped at rest if and only if its request is attended somewhere on the way; requests that come while the party filter rejects are attended only if the filter passes in time |
| `HandOff.StopEventHeardIff` | orkbasecxx/CapturePort.cpp:321-336 | a stop event is attended at once if and only if the filter does not reject the tape |
| `HandOff.ForcedStopHeardIff` | orkbasecxx/CapturePort.cpp:295-298 | a forced stop, which pushes nothing, is attended at once if and only if moreover someone is already on the way to the end of Write |
| `HandOff.HoldsIffLost` | orkbasecxx/AudioTape.cpp:258-276 | from any safe state: a tape holds chunks at rest if and only if the end of Write stopped it over a queue not empty or over a thread still admitted |
| `HandOff.StoppedQueue` | orkbasecxx/AudioTape.cpp:181-210 | a stopped tape keeps what it has, and at rest has chunks exactly if it had some or, with a batch size above 0, a thread was still admitted |
| `HandOff.CalmStopLosesNothing` | orkbasecxx/AudioTape.cpp:258-276 | for a caller: once no further chunk is let in, with no thread between test and append and the consumer not just finishing the tape, nothing is left in it at rest |
| `HandOff.QueuesStayBounded` | orkbasecxx/AudioTape.cpp:186-202 | in every interleaving every chunk queue stays below three batches plus one chunk |
| `HandOff.AnsweredOnce` | orkbasecxx/AudioTape.cpp:361-377 | over every run from the start that has come to rest: the consumer has got exactly one positive answer of IsReadyForBatchProcessing for every tape stopped with bytes in its file, and none for any other tape |
| `HandOff.AnnouncedAtRest` | orkbasecxx/AudioTape.cpp:1236-1244 | in every reachable state at rest no tape is still waiting to be asked: a tape stopped with bytes in its file has been announced once, any other not at all |
| `HandOff.FirstComeFirstServed` | orkbasecxx/ImmediateProcessing.cpp:35-78 | in every interleaving the consumer gets the tapes in the order in which they were put into the deque |
| `HandOff.WorkDecreases` | orkbasecxx/ImmediateProcessing.cpp:80-128 | every step that finishes begun work, a pop that finds nothing included, uses up a bounded amount of work |
| `HandOff.SomethingCanMove` | orkbasecxx/ImmediateProcessing.cpp:35-128 | no deadlock: unless all is at rest some thread can go on with what it has begun |
| `HandOff.InternalRunsEnd` | orkbasecxx/ImmediateProcessing.cpp:35-128 | however begun work is scheduled it ends after at most Work(s) steps, so no wake-up is lost for ever |
| `HandOff.ComesToRest` | orkbasecxx/ImmediateProcessing.cpp:35-128 | from every safe state begun work can be finished and ends in a state at rest |
| `HandOff.ForcedStopAloneNeverStops` | orkbasecxx/CapturePort.cpp:295-298 | a concrete run: a forced stop on a tape nobody is about to write is not heard |
| `HandOff.LateChunkStaysBehind` | orkbasecxx/AudioTape.cpp:181-200 | a concrete run: a chunk admitted before the stop and appended after the last empty look stays in the stopped tape |
| `HandOff.AcceptedChunkStaysBehind` | orkbasecxx/AudioTape.cpp:261-276 | a concrete run with one capture thread, outside AddAudioChunk and Push when it stops the tape: the chunk pushed between the last empty look and the test of m_shouldStop stays in the stopped tape for good |
| `ImmediateProcessing.OrkSemaphore.Release` | orkbasecxx/Utils.h:106-111 | adds one permit |
| `ImmediateProcessing.OrkSemaphore.Acquire` | orkbasecxx/Utils.h:112-118 | takes one permit once there is one |
| `ImmediateProcessing.ImmediateProcessing.Push` | orkbasecxx/ImmediateProcessing.cpp:59-78 | the object: enqueues unless flagged, sets the flag, always releases for a non-null tape, and keeps flag equal to membership |
| `ImmediateProcessing.ImmediateProcessing.Pop` | orkbasecxx/ImmediateProcessing.cpp:35-57 | the object: takes the oldest tape and clears its flag, or answers null; no other tape changes |
| `ImmediateProcessing.ImmediateProcessing.HandleOne` | orkbasecxx/ImmediateProcessing.cpp:92-128 | one round of the consumer: the popped tape is written and asked once whether it goes to batch processing |
| `ImmediateProcessing.WriteKeepsFlag` | orkbasecxx/AudioTape.cpp:212-380 | Write has no say in m_isQueued |
| `ThreadSafeQueues.EveryRun` | orkbasecxx/ThreadSafeQueue.h:47-89 | in every run of concurrent pushes, pops and resizes: permits plus poppers past acquire plus an unreleased pusher cover the queue; pops hand out a prefix of the accepted elements in order; empty pops never outnumber rejected pushes |
| `ThreadSafeQueues.AtRest` | orkbasecxx/ThreadSafeQueue.h:47-89 | with nobody inside and no permit left the queue is empty and every rejected push has cost exactly one empty pop |
| `ThreadSafeQueues.StepKeeps` | orkbasecxx/ThreadSafeQueue.h:47-89 | each step keeps the exact balance behind these |
| `ThreadSafeQueues.TakenIff` | orkbasecxx/ThreadSafeQueue.h:47-60 | a push is taken if and only if fewer elements are accepted and not yet taken than m_size, as an unsigned int, allows; a negative size counts as 2 to the 32nd more |
| `ThreadSafeQueues.BoundHolds` | orkbasecxx/ThreadSafeQueue.h:47-60 | in every run of pushes and pops the queue never holds more than that |
| `ThreadSafeQueues.ThreadSafeQueue.Push` | orkbasecxx/ThreadSafeQueue.h:47-60 | the object: appends if below the bound cast to unsigned, and releases in either case |
| `ThreadSafeQueues.ThreadSafeQueue.Pop` | orkbasecxx/ThreadSafeQueue.h:63-89 | the object: takes the front, or gives the default element if there is none, at the price of one permit |
| `AudioTapes.EveryRun` | orkbasecxx/AudioTape.cpp:181-377 | over every run of calls: push count minus pop count is the queue length, the data size is the sum of the queued chunks and at most three batches plus one chunk, Stopped is final and nothing more reaches its file, at most one positive answer for batch processing |
| `AudioTapes.EveryRunFromNew` | orkbasecxx/AudioTape.cpp:90-138 | the same from a new tape with nothing assumed |
| `AudioTapes.AnnouncedIff` | orkbasecxx/AudioTape.cpp:361-377 | over every run from a new tape: it is ready or has been announced if and only if it is stopped with bytes in its file; asked once more it has then been announced exactly once, and otherwise never |
| `AudioTapes.AcceptedIff` | orkbasecxx/AudioTape.cpp:181-210 | over every run: a chunk is accepted if and only if the tape is new or active and the bytes queued are fewer than three times the batch size of 1024-byte units; only a full queue counts a rejection |
| `AudioTapes.HighMarkIs` | orkbasecxx/AudioTape.cpp:181-210 | over every run the high mark is the longest the queue has been |
| `AudioTapes.FileIsExactly` | orkbasecxx/AudioTape.cpp:258-357 | over every run without party filter, any writes failing: the file holds exactly the chunks it took while it was not over the size limit, in order, and the error count is the number it refused |
| `AudioTapes.WriteKeeps` | orkbasecxx/AudioTape.cpp:212-380 | Write keeps the invariant, empties the queue of a tape not stopped, and stops a tape told to stop that the filter lets through |
| `AudioTapes.PerformKeeps` | orkbasecxx/AudioTape.cpp:181-381 | every single call keeps the invariant; announcements are counted exactly |
| `AudioTapes.NothingLost` | orkbasecxx/AudioTape.cpp:258-345 | with no party filter, no failing write and the size limit not reached, file followed by queue is every accepted chunk in order after any run |
| `AudioTapes.FaultExactly` | orkbasecxx/AudioTape.cpp:212-380 | a Write puts chunks through a null m_audioFileRef if and only if the filter lets the tape through and it is active without a file, and then as many as are queued |
| `AudioTapes.FilelessIff` | orkbasecxx/AudioTape.cpp:227-256 | over every run: a tape not stopped is active without a file if and only if it was before or some Write came while the party filter rejected it |
| `AudioTapes.FaultIff` | orkbasecxx/AudioTape.cpp:319-336 | over every run from a new tape: the next Write goes through the null reference if and only if chunks are queued, the tape is neither stopped nor rejected, and some earlier Write came while it was rejected |
| `AudioTapes.FilteredThenPassedFaults` | orkbasecxx/AudioTape.cpp:227-256 | a concrete run: rejected by the filter, then passed, then one chunk |
| `AudioTapes.AudioTape.AddAudioChunk` | orkbasecxx/AudioTape.cpp:181-210 | the object performs the specified append or rejection |
| `AudioTapes.AudioTape.PopChunk` | orkbasecxx/AudioTape.cpp:261-276 | the object takes the oldest chunk and books it |
| `AudioTapes.AudioTape.StoreChunk` | orkbasecxx/AudioTape.cpp:319-357 | the object hands a chunk to the file, skips it over the size limit, or counts the error |
| `AudioTapes.AudioTape.WriteChunks` | orkbasecxx/AudioTape.cpp:258-359 | the loop drains the queue as the recursive specification says |
| `AudioTapes.AudioTape.Write` | orkbasecxx/AudioTape.cpp:212-380 | the whole call: rejecting branch, main loop, stop |
| `AudioTapes.AudioTape.IsReadyForBatchProcessing` | orkbasecxx/AudioTape.cpp:1236-1244 | answers the flag and clears it |
| `StreamCutting.EndlessIff` | orkaudio/audiocaptureplugins/common/SipTcp.cpp:206-230 | the loop goes on for ever if and only if it comes to some message start twice, and then it does so within the first length + 2 rounds: following every jump, backwards ones included |
| `StreamCutting.ReturnsIff` | orkaudio/audiocaptureplugins/common/SipTcp.cpp:206-223 | the loop returns if and only if some round finds no complete message, and then one of the first length + 1 rounds does, and the answer is where it stands |
| `StreamCutting.ParseResumes` | orkaudio/audiocaptureplugins/common/SipTcp.cpp:201-233 | parsing a piece and going on in the longer stream at the returned offset is parsing the longer stream, all of it returning, for any framing rule stable under continuation |
| `StreamCutting.AnyCutting` | orkaudio/audiocaptureplugins/common/SipTcp.cpp:323-325 | however a well-framed stream is cut, resuming at the saved offset delivers the same messages and consumes the same bytes as one parse, and every call returns |
| `StreamCutting.ParseIsPartition` | orkaudio/audiocaptureplugins/common/SipTcp.cpp:206-230 | as long as the loop goes forwards only, the messages handed on are the consumed bytes cut into pieces |
| `StreamCutting.MessagesComeBack` | orkaudio/audiocaptureplugins/common/SipTcp.cpp:206-230 | messages laid end to end are handed on as they are, for any rule that shows each whatever follows it |
| `StreamCutting.ParseIsMaximal` | orkaudio/audiocaptureplugins/common/SipTcp.cpp:206-223 | the loop has returned exactly if no message is complete where it stopped |
| `SipFraming.AnyCutting` | orkaudio/audiocaptureplugins/common/SipTcp.cpp:201-233 | the same for SIP: every cutting of a stream whose complete headers are framed delivers what one ParseSipStream call on the whole delivers, and every call returns |
| `SipFraming.AnyCuttingIff` | orkaudio/audiocaptureplugins/common/SipTcp.cpp:201-233 | where no declared length is negative, every cutting has all its calls return and delivers the whole stream's messages if and only if all its complete headers are framed |
| `SipFraming.DecimalStreamIsWellFramed` | orkaudio/audiocaptureplugins/common/SipTcp.cpp:212-215 | a Content-Length that is a decimal number followed by CRLF (section 18.3 of RFC 3261) is enough for that |
| `SipFraming.MessagesArrive` | orkaudio/audiocaptureplugins/common/SipTcp.cpp:201-233 | whole messages sent one behind the other are handed on as they are, everything is consumed and the loop returns |
| `SipFraming.LengthInDecimal` | orkaudio/audiocaptureplugins/common/SipTcp.cpp:212-223 | a Content-Length header with the body's length in decimal, and that body, are such a message, for every body |
| `SipFraming.MatchesIff` | orkaudio/audiocaptureplugins/common/SipTcp.cpp:31 | the comparison ignores the case of letters, by their codes, and nothing else |
| `SipFraming.LengthFoundIff` | orkaudio/audiocaptureplugins/common/SipTcp.cpp:27-37 | Content-Length is found at the first place where it stands in any spelling, with a capital C unless at the very beginning, and nowhere else |
| `SipFraming.CaseDoesNotMatter` | orkaudio/audiocaptureplugins/common/SipTcp.cpp:207-223 | changing the case of any letters, capital C's aside, changes nothing about the first message |
| `SipFraming.AnySpelling` | orkaudio/audiocaptureplugins/common/SipTcp.cpp:207 | every spelling of the header's name after its leading C frames a message as the usual one does, wherever it stands |
| `SipFraming.ScanIs` | orkaudio/audiocaptureplugins/common/SipTcp.cpp:213 | the scan skips white space, takes one sign and the decimal digits, and ends behind them |
| `SipFraming.FramePrefix` | orkaudio/audiocaptureplugins/common/SipTcp.cpp:207-223 | a piece of a framed stream shows no complete message or the stream's first one |
| `SipFraming.SafeFromContinuationIff` | orkaudio/audiocaptureplugins/common/SipTcp.cpp:212-215 | a complete message stays the same under every continuation if and only if the scanned length is followed by another byte in the buffer |
| `SipFraming.ReturnsIff` | orkaudio/audiocaptureplugins/common/SipTcp.cpp:206-230 | for every buffer, following the loop forwards and backwards: it returns if and only if one of its first length + 1 rounds finds no complete message, and it goes on for ever if and only if two of its first length + 2 rounds start at the same place |
| `SipFraming.ReadsToEndIff` | orkaudio/audiocaptureplugins/common/SipTcp.cpp:206-230 | it returns having only gone forwards if and only if every complete header it meets declares a number that does not point at or before the start of its message |
| `SipFraming.NegativeLengthStandsStill` | orkaudio/audiocaptureplugins/common/SipTcp.cpp:212-229 | a concrete input: a negative Content-Length brings the loop back to the same message start, where every later round starts |
| `SipFraming.TurnsBackAndReturns` | orkaudio/audiocaptureplugins/common/SipTcp.cpp:217-229 | a concrete input: a negative Content-Length sends the loop back into a message already handed on, and it returns from there |
| `SipFraming.CutChangesMessages` | orkaudio/audiocaptureplugins/common/SipTcp.cpp:212-215 | a concrete stream: fed in two pieces it delivers a message, in one piece none |
| `SipFraming.FindFromFirst` | orkaudio/audiocaptureplugins/common/SipTcp.cpp:27-37 | memFindAfter finds the least match among the places it compares, or there is none |
| `SipFraming.MemFindAfter` | orkaudio/audiocaptureplugins/common/SipTcp.cpp:27-37 | the memchr loop computes that search |
| `SipFraming.NextFrame` | orkaudio/audiocaptureplugins/common/SipTcp.cpp:207-223 | one round of the loop finds the first frame |
| `SipFraming.ParseSipStream` | orkaudio/audiocaptureplugins/common/SipTcp.cpp:201-233 | the loop computes the parse, backward jumps included: offset, messages, and whether it returns, takes an undefined length, leaves the buffer or never ends |
| `StreamTable.EveryArrivalOrder` | orkaudio/audiocaptureplugins/common/SipTcp.cpp:245-339 | over every sequence of packets in any order, every stream, stored or done with, has expecting number equal to last number plus buffer length and offset at most that length, its buffer is that very stretch of the connection's byte stream, each byte once, and if that is well framed its messages are those of one parse |
| `StreamTable.NoneForgotten` | orkaudio/audiocaptureplugins/common/SipTcp.cpp:280-336 | streams stored and streams done with are together those before, the one opened, or all those offered the packet |
| `StreamTable.StillStored` | orkaudio/audiocaptureplugins/common/SipTcp.cpp:312-336 | a stream not consumed entirely and less than 60 seconds old is still stored after every packet, continued if the packet is taken for a continuation |
| `StreamTable.NoneStale` | orkaudio/audiocaptureplugins/common/SipTcp.cpp:329-335 | after a pass over the list no stored stream is consumed entirely or 60 seconds old |
| `StreamTable.Retransmitted` | orkaudio/audiocaptureplugins/common/SipTcp.cpp:246-260 | a packet from at or before the start of a stored stream of its connection changes nothing |
| `StreamTable.OpensBehind` | orkaudio/audiocaptureplugins/common/SipTcp.cpp:262-306 | a packet that opens a message behind the starts of all stored streams of its connection opens a stream of its own, stored unless that packet is all of it |
| `StreamTable.StartsAlwaysRise` | orkaudio/audiocaptureplugins/common/SipTcp.cpp:246-295 | over every sequence of packets no two stored streams of a connection start at the same byte, and they stand in the order of their starts |
| `StreamTable.InOrder` | orkaudio/audiocaptureplugins/common/SipTcp.cpp:312-336 | packets that follow one another, the stream neither consumed entirely nor 60 seconds old before the last, are received by it exactly in order, also if the last one completes it; at the end it is stored if and only if it is neither consumed entirely nor 60 seconds old |
| `StreamTable.ContinuedOk` | orkaudio/audiocaptureplugins/common/SipTcp.cpp:317-327 | one packet offered to a stored stream keeps this, whether it continues the stream or not |
| `StreamTable.OpenedOk` | orkaudio/audiocaptureplugins/common/SipTcp.cpp:278-292 | a stream opened by a packet satisfies it |
| `StreamTable.SweepOk` | orkaudio/audiocaptureplugins/common/SipTcp.cpp:312-336 | one pass over the list keeps it |
| `StreamTable.TcpStream.Continue` | orkaudio/audiocaptureplugins/common/SipTcp.cpp:323-325 | the object appends the payload and resumes parsing |
| `StreamTable.SweepOne` | orkaudio/audiocaptureplugins/common/SipTcp.cpp:317-335 | one list element is offered the packet and kept or erased |
| `StreamTable.SweepKept` | orkaudio/audiocaptureplugins/common/SipTcp.cpp:312-336 | the pass over the list of objects computes the specified pass |
| `StreamTable.TcpStreams.FindDuplicate` | orkaudio/audiocaptureplugins/common/SipTcp.cpp:246-260 | finds whether a stored stream already started at or after this sequence number |
| `StreamTable.TcpStreams.OpenStream` | orkaudio/audiocaptureplugins/common/SipTcp.cpp:278-295 | stores a stream if its first packet is not consumed entirely |
| `StreamTable.TcpStreams.TryTcp` | orkaudio/audiocaptureplugins/common/SipTcp.cpp:235-339 | the whole call on the list of objects: its answer and the streams left |
| `SipTcp.EveryArrivalOrder` | orkaudio/audiocaptureplugins/common/SipTcp.cpp:262-276 | the instance for SIP: its framing rule and its list of message starts |
| `SipTcp.OpensIff` | orkaudio/audiocaptureplugins/common/SipTcp.cpp:262-276 | which payloads open a message: at least 31 bytes beginning with one of eleven texts or with a SIP/2.0 status of 4, 5 or 6 |
| `Escapes.UnescapeEscape` | orkbasecxx/serializers/Serializer.cpp:405-503 | unescaping undoes escaping for the CSV, pair and single-line codes, for every string |
| `Escapes.EscapesAre` | orkbasecxx/serializers/Serializer.cpp:405-503 | which code each of the three escapes puts for each character |
| `Escapes.CodesAre` | orkbasecxx/serializers/Serializer.cpp:426-503 | which character each makes of each code; an unknown code is dropped, and so is a percent sign at the end |
| `Escapes.EscapeClean` | orkbasecxx/serializers/Serializer.cpp:405-423 | escaped text does not contain the character the code protects |
| `Escapes.TrimEscape` | orkbasecxx/serializers/Serializer.cpp:331-333 | trimming commutes with CSV and pair escaping |
| `Escapes.EscapeCsv` | orkbasecxx/serializers/Serializer.cpp:405-423 | the loop computes the escape |
| `Escapes.UnEscapeCsv` | orkbasecxx/serializers/Serializer.cpp:426-452 | the loop computes the unescape, stray percent signs included |
| `Escapes.EscapePair` | orkbasecxx/serializers/Serializer.cpp:456-474 | the loop computes the escape |
| `Escapes.UnEscapePair` | orkbasecxx/serializers/Serializer.cpp:477-503 | the loop computes the unescape |
| `Escapes.EscapeSingleLine` | orkbasecxx/serializers/SingleLineSerializer.cpp:127-149 | the loop computes the escape |
| `Escapes.UnEscapeSingleLine` | orkbasecxx/serializers/SingleLineSerializer.cpp:152-181 | the loop computes the unescape |
| `Serializers.AddCsv` | orkbasecxx/serializers/Serializer.cpp:190-206 | the loop builds the escaped elements joined by commas |
| `Serializers.AddCsvMap` | orkbasecxx/serializers/Serializer.cpp:208-233 | the loop builds the escaped pairs joined by commas |
| `Serializers.GetCsv` | orkbasecxx/serializers/Serializer.cpp:314-354 | the character loop finds the trimmed, unescaped stretches between commas; the old list stays if nothing is found |
| `Serializers.GetCsvMap` | orkbasecxx/serializers/Serializer.cpp:356-382 | pairs are inserted in order, the first of equal keys wins, a missing colon throws |
| `Serializers.SplitJoin` | orkbasecxx/serializers/Serializer.cpp:321-353 | splitting undoes joining when no element has a comma |
| `Serializers.SplitIs` | orkbasecxx/serializers/Serializer.cpp:314-354 | the stretches of any text have no commas and make it up |
| `Serializers.CsvElementsAre` | orkbasecxx/serializers/Serializer.cpp:314-354 | what GetCsv makes of any stretches: each trimmed, then unescaped, an empty last one left out; it finds nothing exactly in an empty text |
| `Serializers.MissingColonIff` | orkbasecxx/serializers/Serializer.cpp:362-382 | GetCsvMap throws if and only if some element has no colon, the elements before the first such one inserted by then |
| `Serializers.PairingIs` | orkbasecxx/serializers/Serializer.cpp:362-382 | the first colon divides key and value, and both are unescaped |
| `Serializers.FirstWins` | orkbasecxx/serializers/Serializer.cpp:376-380 | a key keeps the value it has in the map, or else gets the first one inserted for it |
| `Serializers.CsvComesBackAs` | orkbasecxx/serializers/Serializer.cpp:190-206 | what every list comes back as: elements trimmed, an empty last element gone |
| `Serializers.CsvSurvivesIff` | orkbasecxx/serializers/Serializer.cpp:314-354 | a list survives if and only if no element has outer white space and the last is not empty |
| `Serializers.CsvMapComesBackAs` | orkbasecxx/serializers/Serializer.cpp:208-233 | what every map comes back as: keys lose leading, values trailing white space |
| `Serializers.CsvMapSurvivesIff` | orkbasecxx/serializers/Serializer.cpp:356-382 | a map survives if and only if no key begins and no value ends with white space |
| `Serializers.RebuildsIff` | orkbasecxx/serializers/Serializer.cpp:375 | inserting changed entries with the same distinct keys rebuilds the map if and only if nothing was changed |
| `KeyValueTexts.DeSerialize` | orkbasecxx/serializers/UrlSerializer.cpp:41-123 | the state-machine loop shared by both serializers computes the recursive reading |
| `KeyValueTexts.RunText` | orkbasecxx/serializers/UrlSerializer.cpp:51-123 | a text of complete pairs fills the map with the unescaped values and leaves the machine at its start |
| `KeyValueTexts.RunLastPair` | orkbasecxx/serializers/SingleLineSerializer.cpp:107-120 | a last pair without separator, even with an empty value, is stored at the last character |
| `KeyValueTexts.SeparatorsSkipped` | orkbasecxx/serializers/UrlSerializer.cpp:51-123 | separators before a key are skipped |
| `KeyValueTexts.BadStart` | orkbasecxx/serializers/UrlSerializer.cpp:51-123 | behind any complete pairs a key that begins with neither letter nor digit is an error; the pairs stay |
| `KeyValueTexts.BadKey` | orkbasecxx/serializers/UrlSerializer.cpp:51-123 | in a key only letters and digits may come before the equals sign; an unfinished key at the very end is stored with an empty value all the same |
| `KeyValueTexts.BadValue` | orkbasecxx/serializers/UrlSerializer.cpp:51-123 | a second equals sign in a value is an error, and that pair is not stored if anything follows |
| `UrlSerializers.EscapeUrl` | orkbasecxx/serializers/UrlSerializer.cpp:128-146 | the loop computes the escape |
| `UrlSerializers.UnEscapeUrl` | orkbasecxx/serializers/UrlSerializer.cpp:148-175 | the loop computes the unescape; None where GetAt would run past the end |
| `UrlSerializers.UnescapeEscapeUrl` | orkbasecxx/serializers/UrlSerializer.cpp:128-175 | URL unescaping undoes URL escaping for every string of bytes |
| `UrlSerializers.UrlCodesAre` | orkbasecxx/serializers/UrlSerializer.cpp:128-146 | which characters stand for themselves, and two upper-case hexadecimal digits for any other byte |
| `UrlSerializers.UrlReads` | orkbasecxx/serializers/UrlSerializer.cpp:148-175 | hexadecimal digits of either case, a doubled percent sign and a plus sign are read; a code cut short throws |
| `UrlSerializers.OddCodesRead` | orkbasecxx/serializers/UrlSerializer.cpp:160-170 | what strtol makes of two characters that are not both hexadecimal digits |
| `UrlSerializers.AddString` | orkbasecxx/serializers/UrlSerializer.cpp:22-30 | appends key, equals sign, escaped value up to its first NUL, ampersand |
| `UrlSerializers.UrlComesBackAs` | orkbasecxx/serializers/UrlSerializer.cpp:22-123 | every list of fields comes back with each value cut at its first NUL, without error state or exception |
| `UrlSerializers.UrlSurvivesIff` | orkbasecxx/serializers/UrlSerializer.cpp:22-123 | distinct keys rebuild exactly the map if and only if no value contains a NUL |
| `SingleLineSerializers.AddString` | orkbasecxx/serializers/SingleLineSerializer.cpp:18-27 | appends key, equals sign, escaped value, space |
| `SingleLineSerializers.LineComesBackAs` | orkbasecxx/serializers/SingleLineSerializer.cpp:18-121 | every list of fields comes back, empty values included, except for unescaped white space at the end of the last value |
| `SingleLineSerializers.LineSurvivesIff` | orkbasecxx/serializers/SingleLineSerializer.cpp:18-121 | distinct keys rebuild exactly the map if and only if the last value does not end in white space other than a space |
| `SingleLineSerializers.TrimOutput` | orkbasecxx/serializers/SingleLineSerializer.cpp:47 | what Trim takes off the whole output |
| `NestedSerializing.MapThroughUrl` | orkbasecxx/serializers/Serializer.cpp:208-233 | a NUL-free map with clean keys and values inside any URL message is read back exactly: pair, CSV and URL layers undo each other |
| `NestedSerializing.MapThroughLine` | orkbasecxx/serializers/Serializer.cpp:208-233 | the same inside any single-line message, wherever the field stands |
| `Texts.TrimRightStops` | orkbasecxx/StdString.h:3708-3722 | trimming on the right stops at the last character that is not white space |
| `Texts.TrimIs` | orkbasecxx/StdString.h:3708-3722 | trimming takes off white space at both ends and leaves a text that neither begins nor ends with any |
| `Texts.ClassesAre` | orkbasecxx/StdString.h:1225 | white space and letters and digits by their codes |
| `ByteOrder.LittleEndian32` | orkbasecxx/audiofile/OggOpusFile.cpp:20-28 | four bytes with the least significant first, in both directions |
| `MediaChunkFiles.DetailsRoundTrip` | orkbasecxx/audiofile/MediaChunkFile.cpp:134-135 | the 32-byte image of AudioChunkDetails decodes to the same details |
| `MediaChunkFiles.DetailsLayout` | orkbasecxx/AudioCapture.h:57-65 | where each field stands in those 32 bytes, and its byte order |
| `MediaChunkFiles.FlushedIff` | orkbasecxx/audiofile/MediaChunkFile.cpp:84-113 | a chunk that brings the queued bytes over the batch size has all of them written in order, any other is only queued; on a file not open such a chunk throws |
| `MediaChunkFiles.AlwaysBuffers` | orkbasecxx/audiofile/MediaChunkFile.cpp:84-113 | along any run with one batch size the queued bytes are counted and never more than that |
| `MediaChunkFiles.EmptyRecordReads` | orkbasecxx/audiofile/MediaChunkFile.cpp:126-151 | a record of no bytes reads as a chunk without buffer and with fresh details |
| `MediaChunkFiles.WrittenBytes` | orkbasecxx/audiofile/MediaChunkFile.cpp:50-117 | after Close the file is the accepted chunks' bytes in order whatever the batch sizes |
| `MediaChunkFiles.WriteCloseRead` | orkbasecxx/audiofile/MediaChunkFile.cpp:41-161 | any run of WriteChunk calls, closed and read back, gives exactly the non-empty chunks in order with their details |
| `MediaChunkFiles.ReadBackIff` | orkbasecxx/audiofile/MediaChunkFile.cpp:134-143 | chunks come back if and only if each carries the marker and is below the size limit |
| `MediaChunkFiles.TruncatedFile` | orkbasecxx/audiofile/MediaChunkFile.cpp:126-151 | a file cut off at any byte still gives exactly the chunks complete before the cut; an exception ends the reading only if the next chunk's details are there and its samples are not |
| `MediaChunkFiles.CompleteMeans` | orkbasecxx/audiofile/MediaChunkFile.cpp:126-151 | which chunks those are, by the bytes before them |
| `MediaChunkFiles.MediaChunkFile.FlushToDisk` | orkbasecxx/audiofile/MediaChunkFile.cpp:50-82 | the loop writes every queued chunk with a buffer and resets the size |
| `MediaChunkFiles.MediaChunkFile.WriteChunk` | orkbasecxx/audiofile/MediaChunkFile.cpp:85-117 | ignores empty chunks, queues, and flushes or throws over the batch size |
| `MediaChunkFiles.MediaChunkFile.Close` | orkbasecxx/audiofile/MediaChunkFile.cpp:41-48 | flushes an open file and closes it |
| `MediaChunkFiles.MediaChunkFile.ReadChunkMono` | orkbasecxx/audiofile/MediaChunkFile.cpp:119-161 | end of file, the three exceptions, or the next chunk |
| `MediaChunkFiles.MediaChunkFile.ReadChunks` | orkbasecxx/DirectionSelector.cpp:278 | the reading loop computes the reading of the rest of the file |
| `DirectionMarks.MarksFormChain` | orkbasecxx/AudioTape.cpp:443-454 | with one clock reading per event the marks form a chain, also after the area-code default is put in front |
| `DirectionMarks.OnlyLatestApplies` | orkbasecxx/DirectionSelector.cpp:285-290 | in a chain a mark applies to a time exactly if it is the latest at or before it |
| `DirectionMarks.BlankingFollowsLatest` | orkbasecxx/DirectionSelector.cpp:283-317 | the loop silences a chunk exactly if the latest mark alone would |
| `DirectionMarks.KeptPartyIsHeard` | orkbasecxx/DirectionSelector.cpp:292-313 | with a chain of marks: to keep the local party blanks the remote one's channel and leaves all else alone, and the other way round; the local party is on channel 1 for side 1 and 2 for side 2; with any other instruction or side nothing is blanked |
| `DirectionMarks.InEffectIs` | orkbasecxx/DirectionSelector.cpp:283-317 | what is in effect is what the latest keep-direction event up to that time said |
| `DirectionMarks.DefaultInEffect` | orkbasecxx/DirectionSelector.cpp:241-255 | the default is in effect from time 1 until the first mark and changes nothing from then on |
| `DirectionMarks.LatestGovernsIff` | orkbasecxx/AudioTape.cpp:447-451 | with two readings: the latest mark governs alone at all times if and only if the clock never advanced between an event's two readings (the first event aside) |
| `DirectionMarks.ApplyMarks` | orkbasecxx/DirectionSelector.cpp:283-317 | the loop over the marks blanks the buffer in place exactly if some applying mark silences the channel |
| `DirectionMarks.Blank` | orkbasecxx/DirectionSelector.cpp:296 | memset to zero |
| `DirectionMarks.TapeMarks.KeepDirectionEvent` | orkbasecxx/AudioTape.cpp:443-454 | closes the previous mark and appends the new one |
| `DirectionMarks.TapeMarks.InsertDefaultMark` | orkbasecxx/DirectionSelector.cpp:241-255 | puts the default in front, ending at the first mark |
| `DirectionMarks.RewrittenFile` | orkbasecxx/DirectionSelector.cpp:275-321 | the rewritten file read again is the same chunks in order, each silenced or unchanged |
| `DirectionMarks.RewrittenParties` | orkbasecxx/DirectionSelector.cpp:275-321 | in the rewritten file every chunk is heard or blanked as the instruction in effect at its arrival says |
| `OggOpusFiles.ExactIff` | orkbasecxx/audiofile/OggOpusFile.cpp:435-562 | for every sequence of chunks: no call leaves the buffers and frames followed by carry are all samples in order, if and only if the counter agrees with the carry, and the frames fit m_pcmBuf, whenever a chunk completes a frame; the chunk sizes alone decide |
| `OggOpusFiles.CompletedNextAgrees` | orkbasecxx/audiofile/OggOpusFile.cpp:466 | they do whenever a pending carry is completed by the very next chunk and no chunk is larger than m_pcmBuf |
| `OggOpusFiles.ShortChunksMakeUpSamples` | orkbasecxx/audiofile/OggOpusFile.cpp:466 | a concrete input: 100, 30 and 100 samples give 100 stale ones |
| `OggOpusFiles.ShortChunksLeaveBuffer` | orkbasecxx/audiofile/OggOpusFile.cpp:478-503 | a concrete input: 100, 50 and 5 samples have a negative number of bytes copied |
| `OggOpusFiles.CloseCompletes` | orkbasecxx/audiofile/OggOpusFile.cpp:571-590 | after a run whose counts agree the first Close pads with zeros to the total divided by 160 rounded up |
| `OggOpusFiles.SecondCloseRepeats` | orkbasecxx/audiofile/OggOpusFile.cpp:573-584 | a second Close hands the padded carry to the encoder once more |
| `OggOpusFiles.WriteContent` | orkbasecxx/audiofile/OggOpusFile.cpp:472-553 | how the content grows with one chunk, stale samples included |
| `OggOpusFiles.OggOpusFile.WriteChunk` | orkbasecxx/audiofile/OggOpusFile.cpp:435-562 | the object with its two buffers computes the specified step |
| `OggOpusFiles.OggOpusFile.StoreCarry` | orkbasecxx/audiofile/OggOpusFile.cpp:444-468 | a short chunk joins the carry |
| `OggOpusFiles.OggOpusFile.WriteFrames` | orkbasecxx/audiofile/OggOpusFile.cpp:470-562 | whole frames go to the encoder, the rest becomes the carry |
| `OggOpusFiles.OggOpusFile.PlaceInFrames` | orkbasecxx/audiofile/OggOpusFile.cpp:481-529 | carry and chunk are laid into m_pcmBuf, the rest of which stays |
| `OggOpusFiles.OggOpusFile.EncodeChunks` | orkbasecxx/audiofile/OggOpusFile.cpp:604-622 | the loop hands on 160-sample frames in order |
| `OggOpusFiles.OggOpusFile.CloseFile` | orkbasecxx/audiofile/OggOpusFile.cpp:571-590 | pads and encodes the carry in place |
| `OpusComments.WriteTags` | orkbasecxx/audiofile/OggOpusFile.cpp:32-95 | init, any number of adds and one pad: an independent reader (section 5.2 of RFC 7845) gets back vendor, comments in order and zeros; the length is 254 modulo 255 and grows by at least the amount and less than that plus 255 |
| `OpusComments.BlockReadsBack` | orkbasecxx/audiofile/OggOpusFile.cpp:78-95 | a block reads back to vendor and comments with whatever follows |
| `OpusComments.BlockBegins` | orkbasecxx/audiofile/OggOpusFile.cpp:52-95 | the block begins with the letters OpusTags, and an equals sign stands between a tag and its value |
| `OpusComments.PaddedLengthFits` | orkbasecxx/audiofile/OggOpusFile.cpp:40-41 | the padded length is 254 modulo 255 and within the stated bounds |
| `OpusComments.Comments.CommentInit` | orkbasecxx/audiofile/OggOpusFile.cpp:78-95 | a block without comments |
| `OpusComments.Comments.CommentAdd` | orkbasecxx/audiofile/OggOpusFile.cpp:52-76 | the block gains one comment and its counter one |
| `OpusComments.Comments.CommentPad` | orkbasecxx/audiofile/OggOpusFile.cpp:32-50 | zeros up to the padded length; nothing for a non-positive amount |
| `OpusComments.Comments.WriteInt` | orkbasecxx/audiofile/OggOpusFile.cpp:24-28 | four bytes little-endian at a place, the rest unchanged |
| `OpusComments.Comments.ReadInt` | orkbasecxx/audiofile/OggOpusFile.cpp:20-23 | reads them back |
| `OpusHeaders.ParsePrinted` | orkbasecxx/audiofile/opus_header.cpp:219-272 | parsing the packet printed from any acceptable header gives the header with version 1 (section 5.1 of RFC 7845) |
| `OpusHeaders.PrintParsed` | orkbasecxx/audiofile/opus_header.cpp:136-217 | an accepted packet is reprinted except that the version byte becomes 1 and bytes behind the known fields of newer minor versions are dropped |
| `OpusHeaders.ReprintedIff` | orkbasecxx/audiofile/opus_header.cpp:136-272 | byte for byte if and only if its version byte is 1 |
| `OpusHeaders.ParseIsAcceptable` | orkbasecxx/audiofile/opus_header.cpp:136-217 | everything accepted satisfies the stated field ranges |
| `OpusHeaders.AcceptedIff` | orkbasecxx/audiofile/opus_header.cpp:136-217 | by the bytes of the packet: exactly which packets are accepted |
| `OpusHeaders.AcceptedConformsIff` | orkbasecxx/audiofile/opus_header.cpp:197-203 | the stream map of an accepted packet conforms to section 5.1.1 of RFC 7845 if and only if no index equals the number of decoded channels |
| `OpusHeaders.AcceptsOneIndexTooMany` | orkbasecxx/audiofile/opus_header.cpp:201-202 | a concrete packet that is accepted and does not conform |
| `OpusHeaders.OpusHeaderParse` | orkbasecxx/audiofile/opus_header.cpp:136-217 | the reader object computes the parse |
| `OpusHeaders.OpusHeaderToPacket` | orkbasecxx/audiofile/opus_header.cpp:219-272 | the writer fills the buffer with exactly the packet, answers its length, or 0 if the buffer is too small |
| `OpusHeaders.ReadTable` | orkbasecxx/audiofile/opus_header.cpp:182-203 | the channel mapping table with its checks |
| `OpusHeaders.Packet.WriteChars` | orkbasecxx/audiofile/opus_header.cpp:94-102 | appends if there is room, leaves the bytes behind alone |
| `OpusHeaders.ROPacket.ReadChars` | orkbasecxx/audiofile/opus_header.cpp:126-134 | reads if there is enough, else leaves the position |
| `Iax2.ParseIes` | orkaudio/audiocaptureplugins/voip/Iax2Parsers.cpp:65-147 | answers 0 if and only if the bytes tile into elements; then every string pointer, read up to the first NUL of the overwritten data, spells the last payload of its kind (1, 2, 4, 6 and 15) cut at its first NUL, and the format (9) and authentication methods (14) are what four bytes say with the most significant first, or 0; the final data in every case (section 8.6 of RFC 5456) |
| `Iax2.PointersSpell` | orkaudio/audiocaptureplugins/voip/Iax2Parsers.cpp:138-140 | overwriting each type byte ends the payload before it, so every pointer spells its payload |
| `Iax2.Note` | orkaudio/audiocaptureplugins/voip/Iax2Parsers.cpp:85-124 | one element updates exactly the field its kind's number names: a pointer to its payload, or the number four bytes say with the most significant first |
| `Iax2.LastIs` | orkaudio/audiocaptureplugins/voip/Iax2Parsers.cpp:85-124 | the payload meant is that of the last element of the kind |
| `Iax2.ReadElements` | orkaudio/audiocaptureplugins/voip/Iax2Parsers.cpp:71-142 | the loop reads elements until none is complete |
| `Tilings.OneReading` | orkaudio/audiocaptureplugins/voip/Iax2Parsers.cpp:71-142 | bytes read in one way only as complete items followed by a rest that shows none |
| `Tilings.TilesIff` | orkaudio/audiocaptureplugins/voip/Iax2Parsers.cpp:144-156 | so they tile exactly if nothing is left over |
| `LruMaps.EveryRun` | orkbasecxx/OrkLruMap.h:116-231 | over every run: one entry a key, never more entries than places, and every entry is the one last stored and not since removed |
| `LruMaps.SizeIs` | orkbasecxx/OrkLruMap.h:238-246 | over every run the number of places is the largest ever asked for |
| `LruMaps.HoldsExactly` | orkbasecxx/OrkLruMap.h:116-231 | over every run: a key is found if and only if it was stored and since then neither removed nor, being the oldest, dropped by RemoveOldest or by storing another key in a full map |
| `LruMaps.OldestIsLeast` | orkbasecxx/OrkLruMap.h:182-192 | with a clock that does not go back GetOldestTs is the least time stamp there is |
| `LruMaps.InsertIs` | orkbasecxx/OrkLruMap.h:116-136 | an insertion puts its entry last and changes the answer for one other key at most: the oldest, if full |
| `LruMaps.IdealIff` | orkbasecxx/OrkLruMap.h:116-132 | InsertPair equals a least-recently-inserted cache if and only if it is not (full, with the key present in another place than the oldest) |
| `LruMaps.NeedlessEviction` | orkbasecxx/OrkLruMap.h:118-123 | a concrete run: with two places, storing the newer key again loses the older |
| `LruMaps.RecentStays` | orkbasecxx/OrkLruMap.h:116-136 | still, the entries of the last as many insertions as there are places are all there |
| `LruMaps.UnlinkAt` | orkbasecxx/OrkLruMap.h:204-215 | erasing through the stored iterator takes out exactly that key's entry and keeps list and map linked |
| `LruMaps.OrkLruMap.InsertPair` | orkbasecxx/OrkLruMap.h:116-136 | list and map of iterators refine the ordered sequence |
| `LruMaps.OrkLruMap.Remove` | orkbasecxx/OrkLruMap.h:204-215 | erases the key's entry if there is one and says so |
| `LruMaps.OrkLruMap.RemoveOldest` | orkbasecxx/OrkLruMap.h:194-202 | drops the first entry if there is one |
| `LruMaps.OrkLruMap.Clear` | orkbasecxx/OrkLruMap.h:222-226 | empties list and map |
| `LruMaps.OrkLruMap.SetSize` | orkbasecxx/OrkLruMap.h:238-246 | only ever grows |
| `LruMaps.OrkLruMap.GetValue` | orkbasecxx/OrkLruMap.h:143-157 | finds the value the sequence holds |
| `LruMaps.OrkLruMap.GetEntryTs` | orkbasecxx/OrkLruMap.h:159-169 | the time stamp reached through the stored iterator is the entry's own |
| `LruMaps.OrkLruMap.GetOldestTs` | orkbasecxx/OrkLruMap.h:182-192 | the first entry's time stamp, or -1 |
| `LruMaps.OrkLruMap.GetOldestPair` | orkbasecxx/OrkLruMap.h:90-101 | the first entry's pair, or end() |
| `LruMaps.OrkLruMap.GetNewestPair` | orkbasecxx/OrkLruMap.h:103-114 | the last entry's pair, or end() |
| `LruMaps.OrkLruMap.Count` | orkbasecxx/OrkLruMap.h:228-231 | the number of entries, at most the size |
| `CapturePorts.EveryRun` | orkbasecxx/CapturePort.cpp:189-275 | over every sequence of chunks and plugin events: a tape is attached exactly while m_vadUp; capturing implies m_vadUp; the counter is the total duration of the below-threshold chunks at the end since voice start; the tape holds the chunks from the starting one up to a plugin stop; ImmediateProcessing was told after each |
| `CapturePorts.StopsWhen` | orkbasecxx/CapturePort.cpp:213-243 | voice stops at exactly the judged chunk with which that silence exceeds the hold-on time; the tape let go of ends with EtStop and has not got that chunk |
| `CapturePorts.UpIff` | orkbasecxx/CapturePort.cpp:213-258 | with ordered thresholds: a tape is attached if and only if some chunk was above the high threshold and no silence since has exceeded the hold-on time |
| `CapturePorts.StepWhileUp` | orkbasecxx/CapturePort.cpp:213-245 | one step with voice up, field by field: counter, queue, segment number, the tape as a whole, what is released |
| `CapturePorts.StepWhileDown` | orkbasecxx/CapturePort.cpp:246-268 | one step with voice down: only a loud chunk changes more than the queue, and it starts a tape with itself alone |
| `CapturePorts.StoppedTapeHearsNothing` | orkbasecxx/CapturePort.cpp:279-284 | a tape the plugin has stopped takes no further chunk however long the voice goes on |
| `CapturePorts.LoudButUnrecorded` | orkbasecxx/CapturePluginProxy.cpp:342-346 | a family of runs: voice, plugin stop, any number of loud chunks, of which none is recorded |
| `CapturePorts.StartIs` | orkbasecxx/CapturePort.cpp:248-266 | a voice start leaves a fresh tape with exactly the starting chunk, signalled once |
| `CapturePorts.MetadataComplete` | orkbasecxx/CapturePort.cpp:112-138 | a tape being recorded has all metadata the plugin sent since its last stop, in order, whether before or after the voice started |
| `CapturePorts.FreshSegments` | orkbasecxx/CapturePort.cpp:119-131 | over every run: along all tapes ever recorded, released or attached, the segment numbers of the tracking ids rise strictly, so none is given twice |
| `CapturePorts.StartNumbers` | orkbasecxx/CapturePort.cpp:112-138 | on a tape that voice has just started every tracking id has a segment number, and m_segmentNumber has gone up by how many there are |
| `CapturePorts.EveryTapeFramed` | orkbasecxx/CapturePort.cpp:213-268 | over every run: a start event stands first on every tape and nowhere else, a stop event last on every tape let go of |
| `CapturePorts.HoldDurationIs` | orkbasecxx/CapturePort.cpp:337-360 | m_holdDuration with the hold going on is the number of seconds on hold |
| `CapturePorts.HoldsReported` | orkbasecxx/CapturePort.cpp:337-360 | the tape is told of exactly the holds and resumes that change the state, if they are to be reported, and else of none |
| `CapturePorts.CapturePort.AddAudioChunk` | orkbasecxx/CapturePort.cpp:140-284 | the object performs the specified step |
| `CapturePorts.CapturePort.AddCaptureEvent` | orkbasecxx/CapturePort.cpp:286-395 | the object performs the specified step; a start event tells the previous tape to stop and attaches a new one |
| `CapturePorts.CapturePort.ReportEventBacklog` | orkbasecxx/CapturePort.cpp:112-138 | the loop replays the queue as specified |
| `CapturePorts.CapturePort.CaptureEventCallBack` | orkbasecxx/CapturePluginProxy.cpp:332-362 | drops a plugin start, clears the queue on a stop, queues and delivers the rest |
| `CapturePorts.PortTape.Take` | orkbasecxx/CapturePort.cpp:319-394 | what each event does to the attached tape |

## Left out

- Sockets, TLS, HTTP, the daemon, plugin loading, logging, configuration files and the DOM serializer: I/O and foreign libraries. Configuration values are parameters.
- Clocks are parameters: one value per event or packet, two where the code reads it twice and it matters (keep-direction marks).
- The audio filters a capture port runs, decoders, RMS and decibel computation: a chunk comes with its level, or none if no decoder took it. An RTP payload type outside the decoder table, where vector::at throws, is not modelled. Durations and levels are reals, without rounding.
- Capture ports outside voice-activity mode, audio segmentation, disabled audio output, IsExpired, Finalize, the messages sent to Reporting and the hold-duration tag.
- HandOff: does not model the rest of the tape processor chain that follows a positive IsReadyForBatchProcessing, nor stopping the daemon; weak memory is not modelled, each unlocked access is one step. A run goes on after a chunk has gone through a null file reference (a party filter that passes late, `AudioTapes.FaultIff`), so the theorems also speak of runs the process would not survive.
- ImmediateProcessing.OrkSemaphore.Acquire: waiting is the precondition; acquire with a timeout is left out.
- AudioTapes.AudioTape.StoreChunk: a file refusing a chunk is an input; opening the file, its name and collisions are not modelled.
- AudioTapes.AudioTape.Write: closing the file object on stop is not modelled here; MediaChunkFiles has Close.
- SipFraming.ParseSipStream: the fields ParseSipMessage extracts are not modelled, the message slices are recorded, and for a message that would end before its start nothing is. Pointers in front of the buffer are not followed, and a run that never ends is given up once it has come to a place twice; either is its own outcome, after which nothing is said about the process. The payload of a first packet is treated as followed by NUL like the stored buffer, and a length out of the range of int, undefined in C, is its own outcome.
- StreamTable.EveryArrivalOrder: sequence numbers do not wrap, and the packets carry one consistent byte stream per connection.
- Serializers.GetCsv: the required flag and the lookup of the key in the map are left out; likewise the numeric, date and enumeration fields and FindClass.
- KeyValueTexts.DeSerialize: error descriptions and the call to Define at the end are left out; isalnum and isspace are those of the C locale.
- UrlSerializers.UnEscapeUrl: strtol of a two-character text is modelled with its sign and white space cases; a result above 127 is held as an unsigned byte.
- MediaChunkFiles.MediaChunkFile.FlushToDisk: no write fails, and the queued size does not wrap at 32 bits. The two padding bytes of AudioChunkDetails, indeterminate in C, are written as zeros.
- OggOpusFiles.OggOpusFile.WriteChunk: a call that would leave the buffers has no defined outcome and is excluded for the object; in runs it is the outcome None. Mono with whole samples only. The stereo path, which Close pads in the mono buffer, the end-of-stream flag and the encoder and Ogg paging are left out; a frame handed to the encoder is the output.
- OpusComments.Comments.CommentAdd: allocation failure is left out; lengths must fit an int, as the code silently assumes.
- OpusHeaders.OpusHeaderParse: entries of stream_map not in use and what a rejected packet leaves in the struct are not modelled.
- DirectionMarks.RewrittenFile: renaming files, the area-code lookup itself and write errors are left out.
- Iax2.ParseIes: the datalen given is not negative, as all callers ensure, and one writable byte follows the data. The trunk-frame loops, which cut self-delimiting entries in the same way without writing, are left out, as are the frame headers.
- LruMaps.OrkLruMap.InsertPair: the size is at least 1. Assigning through operator[], removal by iterator and iteration are left out.
- CapturePorts.UpIff: needs ordered thresholds and a non-negative hold-on time; EveryRun and StopsWhen do not.
- AudioTape event handling other than keep-direction marks and the events a capture port passes on; minimum durations, keep decisions and batch processing.
- G.711 tables, enumeration names, the Opus encoder, libsndfile, SkipChunk, memory allocation failure.
