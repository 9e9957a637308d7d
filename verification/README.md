# adlServer: a verified model of its protocols

adlServer is a reactor-style network server with a hand-written HTTP parser and
an asynchronous logger. This project models the parts of it whose correctness
does not show in any single function, and proves what they are for: what the
parser accepts and how it behaves on bytes that arrive in pieces, what becomes
of every log record, how connections live and die, that no wakeup is lost, and
that buffers behave as queues of bytes.

`dafny verify dfyconfig.toml` checks everything.

## How it is laid out

| files | what they hold |
|---|---|
| `HttpGrammar`, `HttpNumbers`, `HttpAcceptance`, `HttpRoundTrip`, `HttpLoops`, `HttpFailures` | the reading of one buffer as a function; `stoi`; the grammar it accepts; printing and reading back; which buffers make its loops run for ever or end in an exception; which it judges failed, and which are incomplete |
| `HttpParser`, `HttpArrivals`, `HttpServer` | the parser object with its three nested cursor loops; how many requests of a stream get their turn; read events, the message callback, and whole sessions |
| `NetBuffer` | the byte buffer: an array, two indices, compaction, doubling, `readFd` |
| `LogPipeline`, `AsyncLogging`, `LogFile`, `LogDelivery` | the exchange of buffers between the front ends and the back end; the logger object; the rolling file; records and directly logged lines on their way to the files |
| `EventLoop`, `BoundedQueue` | task hand-over with the eventfd wakeup; the two-condition monitor |
| `Registry`, `Epoller`, `TcpOutput`, `TcpConnection`, `Lifecycle`, `ConnectionEffects`, `ForcedClose`, `SubLoop`, `DoubleClose`, `LingeringRun`, `LoadBalance` | registration with epoll; the output path; the life of connections under one loop; what each call and report does to a connection; forced closes in time; the loop object; a run that fails an assertion and one in which a socket outlives its connection's round; the choice of a loop |

Code that several threads run is a state machine: a lock section, or a piece of
work between two of them, is one step, and a run is any list of steps each of
which could happen in its turn. Objects that one thread updates in place are
classes, and each of their methods is proved to be the corresponding step. What
was called, sent, put or asked for in a run is read off the list of its steps.
The kernel, the clock and user code are parameters that may take any value:
partial writes, every errno, every event mask, clocks that stand still or go back.

Where the code does not do what one would like, the model follows the code and
the exact condition is proved:

- A request cut inside its method name or inside its version is judged `Failed_`
  though the rest is on its way; every other cut is `Incomplete_`
  (`HttpRoundTrip.PrefixVerdict`).
- `parse` never returns exactly on two families of buffers: a CR without LF in
  the head with more bytes behind it, and a POST with a whole head, a
  Content-Length that is not positive, and at least one byte more
  (`HttpLoops.SpinsIff`); that its loops then never end, and end on every other
  buffer, is shown pass by pass (`HttpLoops.ParseLoop`).
- `parse` ends in an exception exactly on two others: a header line that begins
  with a space, and a POST with a whole head, at least one byte more, and a
  Content-Length that `stoi` does not take (`HttpLoops.ThrowsIff`). No buffer is
  excluded; `Spins` and `Throws` are outcomes of the model.
- The server closes after every request that does not ask for keep-alive or, for
  a GET, has no file to send, handles one request per call of the message
  callback, and drops what a read delivered when the same read finds the end of
  the stream. When all requests of a stream are answered nevertheless is an
  if-and-only-if (`HttpServer.AllAnsweredIff`; `HttpServer.OneAnswerExample` and
  `HttpServer.TwoInOneReadExample` show streams of which one is not).
- A record of `kLargeBuffer - 1` bytes passes the guard of `append` but fits no
  buffer and is lost (`LogPipeline.AppendPipeline`).
- A bounded queue can get stuck exactly when it was built with no capacity
  (`BoundedQueue.StuckIff`).
- A connection's `handleClose` runs into its own assertion exactly on a report
  with EPOLLHUP, without EPOLLIN, with EPOLLPRI or EPOLLRDHUP, whose read finds
  the end of the stream (`Lifecycle.AbortsIff`). With a kernel that may report any
  mask a run gets there (`DoubleClose.AbortReachable`); Linux sets EPOLLIN along
  with EPOLLRDHUP on a TCP socket.
- A connection that user code or the main thread still points to keeps its
  socket beyond the round that destroys it; it is open exactly while somebody
  owns it (`Lifecycle.OpenExactlyWhileOwned`, `Lifecycle.ClosedWithinARound`), and
  a run shows one that lingers (`LingeringRun.LingersReachable`).
- The rolling file does not hold the records of `append` alone: `threadFunc` makes
  it the target of every `LOG` line as well. What holds of the two together is
  `LogDelivery.RecordsReachFiles`.
- The doubling loop of `expansion` ends exactly for a positive capacity
  (`NetBuffer.ExpansionEndsIff`).
- A log file grows on beyond its roll size exactly while `rollfile` is refused,
  which it is for the rest of the second of the last roll (`LogFile.OverlongIff`,
  with a run in `LogFile.OverlongExample`).

The comment on the parser's head loop says that it goes on looking when a CR is
not followed by LF; the code goes back to the start of the line instead. The
model does what the code does.

## Model

| member | source | states |
|---|---|---|
| HttpParser.Parser.SkipRequestLine | src/http/httpParser.cpp:23-39 | the line search stops behind the first CRLF, at the end of the bytes, or says that they stop after a CR; a CR takes the next byte along |
| HttpParser.Parser.RequestLineParse | src/http/httpParser.cpp:18-105 | the line loop with its method, url and version states ends with the line state and request fields of the functional reading, for every buffer |
| HttpParser.Parser.HeadPass | src/http/httpParser.cpp:112-153 | one pass of the head loop does exactly what the line at `l_end_` calls for: store it, stop at the blank line, reject, throw, wait, or go round |
| HttpParser.Parser.RequestHeadParse | src/http/httpParser.cpp:107-156 | the head loop's cursors, line state and header map are those of the functional reading, from any position and header map |
| HttpParser.Parser.RequestBodyParse | src/http/httpParser.cpp:158-168 | the body is exactly the next Content-Length bytes, or nothing moves and more bytes are awaited |
| HttpParser.Parser.BodyPass | src/http/httpParser.cpp:222-254 | one pass over a body gives the verdict, or, exactly for a Content-Length that is not positive, leaves every field as it was |
| HttpParser.Parser.Parse | src/http/httpParser.cpp:170-258 | the object's final state, parseSize_ and request after its nested loops are the verdict on its buffer, for every buffer; where a pass would repeat itself for ever, which `HttpLoops.ParseLoop` is about, the verdict says so |
| HttpAcceptance.ScanComplete | src/http/httpParser.cpp:23-39 | any line body followed by CRLF is found, with its exact end |
| HttpAcceptance.ScanSound | src/http/httpParser.cpp:23-39 | a line end found before the end of the bytes is a CRLF with a proper line body in front |
| HttpAcceptance.LineSound | src/http/httpParser.cpp:39-101 | an accepted request line is method, space, space-free url, space, HTTP/1.0 or HTTP/1.1, before its CRLF |
| HttpAcceptance.LineComplete | src/http/httpParser.cpp:39-101 | every such line is accepted with those fields |
| HttpAcceptance.HeadSound | src/http/httpParser.cpp:112-153 | a head that is read is a list of CR-free lines with a space that is not their first byte, then a blank line, and its map is the lines inserted in order, first value of a key winning |
| HttpAcceptance.HeadComplete | src/http/httpParser.cpp:112-153 | every such head is read, to just past its blank line |
| HttpAcceptance.LineSplits | src/http/httpParser.cpp:144-149 | a header line is its key, one byte that is dropped, a space, and its value; no space is in the key |
| HttpAcceptance.FirstWins | src/http/httpParser.h:55-73 | the map of a head holds exactly the keys of its lines, each with the value of the first line that has it |
| HttpAcceptance.SuccessIff | src/http/httpParser.cpp:170-258 | for every buffer, Success_ with a given request and parseSize_ if and only if the buffer starts with that many bytes of the grammar with those fields (for POST exactly Content-Length body bytes); and 0 < parseSize_ <= len_, which `retrieve` asserts |
| HttpAcceptance.SuffixIrrelevant | src/httpServer.cpp:12-28 | bytes behind a successful request change neither it nor its size |
| HttpLoops.ParseLoop | src/http/httpParser.cpp:112-248 | pass by pass, the loops of `parse` and `requestHeadParse` are still running after any number of passes if and only if the verdict is `Spins`; otherwise they have stopped with the verdict after at most len_ + 3 passes, for good |
| HttpLoops.SpinsIff | src/http/httpParser.cpp:112-248 | exactly these buffers never let `parse` return: an accepted request line, header lines, then a CR, a byte that is not LF, and more; or a POST line, a whole head with a Content-Length of at most zero, and at least one more byte |
| HttpLoops.ThrowsIff | src/http/httpParser.cpp:133-228 | exactly these end in an exception: an accepted request line, header lines, then a line that begins with a space; or a POST line, a whole head with a Content-Length that is no int, and at least one more byte |
| HttpLoops.BareCRExample | src/http/httpParser.cpp:113-123 | a whole buffer of the first kind that never lets `parse` return |
| HttpLoops.IdlePostExample | src/http/httpParser.cpp:222-248 | a whole buffer of the second kind |
| HttpLoops.SpaceExample | src/http/httpParser.cpp:133-149 | a whole buffer that ends in an exception for a space in front |
| HttpLoops.NumberlessPostExample | src/http/httpParser.cpp:224-227 | a whole buffer that ends in an exception for its Content-Length |
| HttpFailures.RejectedIff | src/http/httpParser.cpp:39-101 | exactly these request lines are rejected, the line ending at its CRLF or with the buffer: one that begins with neither GET nor POST; one with a method, a url and their spaces and then something that is not one of the two versions |
| HttpFailures.FailedIff | src/http/httpParser.cpp:170-258 | for every buffer, Failed_ if and only if: a rejected request line; an accepted one and header lines, then a whole line without a space; or a POST with a whole head without Content-Length and at least one more byte |
| HttpFailures.IncompleteIff | src/http/httpParser.cpp:170-258 | Incomplete_ if and only if none of the grammars of the other four outcomes names the buffer |
| HttpFailures.UnknownMethodExample | src/http/httpParser.cpp:53-66 | a whole PUT request fails |
| HttpNumbers.StoIIff | src/http/httpParser.cpp:224-228 | `stoi` gives a number if and only if the string is blanks, perhaps a sign, digits that stand for it, and then no digit, and it fits an int |
| HttpRoundTrip.PrintedHeadReadsBack | src/http/httpRespond.h:70-82 | a header block printed by `respond`, in any map order and any surroundings, is read back as the same map, to just past its blank line |
| HttpRoundTrip.DecimalReadsBack | src/http/httpParser.cpp:224-228 | a size printed in decimal is read back by `stoi` if and only if it fits an int |
| HttpRoundTrip.RoundTrip | src/http/httpParser.cpp:18-258 | every well-formed request, rendered and followed by anything, is read back whole with its exact length |
| HttpRoundTrip.PipelinedRoundTrip | src/http/httpParser.cpp:170-258 | every list of well-formed requests, concatenated, is read back as exactly that list by fresh parsers, leaving nothing |
| HttpRoundTrip.PrefixVerdict | src/http/httpParser.cpp:18-258 | the verdict on every prefix of every well-formed request: success only on the whole, failure exactly on cuts inside the method or the version, otherwise incomplete |
| HttpRoundTrip.JudgedCutExample | src/http/httpParser.cpp:89-99 | a concrete GET whose cut inside the version fails although the whole request succeeds |
| HttpServer.HttpMessageCallback | src/httpServer.cpp:6-87 | one call consumes exactly the parsed request on success, everything on failure, nothing when incomplete, on the real buffer; it forces a close exactly after a success without keep-alive or without its file, and shuts down exactly after a failure |
| HttpServer.Input.HandleRead | src/net/tcpConnection.cpp:117-141 | a read event on the real buffer, `readFd` and callback included, is the step the statements below are about: a close drops what the same read delivered, an error or an empty read leaves it buffered |
| HttpServer.SuccessCallback | src/httpServer.cpp:50-87 | the connection is kept exactly for a Connection header of `Keep-Alive` or `keep-alive` and, for a GET, a file that opens |
| HttpServer.ReadEventIs | src/net/tcpConnection.cpp:126-139 | for any bytes, what a read event does to a session that is up: answered, consumed, half closed, forced, closed or stuck, each exactly by how the read ended and the verdict on all that is buffered |
| HttpServer.DeafEventIs | src/httpServer.cpp:24-28 | after a failure requests may be parsed but none is answered |
| HttpServer.BufferedVerdict | src/httpServer.cpp:9-28 | the verdict on buffered bytes that begin a list of requests: the first request if it is there whole, failure on a cut inside its method or version, else incomplete |
| HttpServer.ServeStream | src/httpServer.cpp:6-87 | for every stream of well-formed requests, however it is read, after every read event: the requests handled are exactly the first ones, as many as a count made from byte counts alone says, in order and as sent; the connection is up exactly when that count says so, and then holds every other byte |
| HttpServer.StaysUpIff | src/httpServer.cpp:50-87 | the connection is up if and only if every request that was due asked for keep-alive and had its file, and no read ended in a close or inside a method or version; everything due has then been handled |
| HttpServer.ModeAfter | src/httpServer.cpp:20-28 | what a read event makes of a connection that is up, from byte counts alone: closed by the peer, forced closed after a whole request that is not to be kept, half closed with nothing buffered by a cut inside a method or version, up otherwise |
| HttpArrivals.TurnsIff | src/net/tcpConnection.cpp:126-133 | the callback is called exactly when bytes came and the read then found the socket empty; the connection closes exactly when the read found the end |
| HttpArrivals.CaughtUpIff | src/httpServer.cpp:12-30 | with one request per call, everything received has had its turn if and only if in no stretch of reads up to now more requests were completed than calls made |
| HttpServer.AllAnsweredIff | src/httpServer.cpp:6-87 | all requests of a stream are handled if and only if: all but the last ask for keep-alive and have their files; until the last is due no read ends in a close or inside a method or version; and in no final stretch more requests are completed than calls made |
| HttpServer.NothingLostWhileUp | src/httpServer.cpp:6-44 | while the connection is up, once all bytes are in, the requests handled followed by those still in the buffer are exactly those sent |
| HttpServer.NothingBehind | src/httpServer.cpp:50-87 | nothing is handled behind a request that does not ask for keep-alive or has no file, whatever arrives |
| HttpServer.OneAnswerExample | src/httpServer.cpp:50-87 | a request without headers sent twice: the second is never handled, however the bytes arrive |
| HttpServer.TwoInOneRead | src/httpServer.cpp:12-30 | any request that keeps the connection, sent twice and delivered by one read: the first is handled, the second waits in the buffer of a connection that is up |
| HttpServer.TwoInOneReadExample | src/httpServer.cpp:12-52 | a concrete keep-alive GET with its file, sent so: the second is not handled |
| HttpServer.HangUp | src/net/Channel.cpp:25-41 | a hang-up report without EPOLLIN does to a session what a read that finds the end at once does, so that sessions with hang-ups are among those above |
| HttpServer.LostAtClose | src/net/tcpConnection.cpp:127-133 | a read that ends in the peer's close loses exactly the requests not handled before it, those it delivered itself included |
| NetBuffer.Grow | src/net/netBuffer.h:145-150 | doubling ends above what is needed, and at most at twice that when it grows at all |
| NetBuffer.ExpansionEndsIff | src/net/netBuffer.h:147-148 | the doubling loop ends if and only if the capacity is positive |
| NetBuffer.Buffer.CheckCapacity | src/net/netBuffer.h:127-143 | room for the bytes and one more, same readable bytes; nothing moves if there was room; capacity grows exactly when the readable bytes and those asked for do not fit, only with the readable bytes at offset 0, and to at most twice what is asked |
| NetBuffer.Buffer.Append | src/net/netBuffer.h:67-73 | readable bytes followed by the new ones, strict free space kept, capacity bounded |
| NetBuffer.Buffer.Retrieve | src/net/netBuffer.h:104-110 | drops exactly the first bytes |
| NetBuffer.Buffer.ReadChunk | src/net/netBuffer.cpp:38-47 | one read takes at least one byte and all that fits, keeps the rest for the next, and leaves more than a fifth of the capacity or 4096 bytes free, growing only when less than that was left |
| NetBuffer.Buffer.ReadFd | src/net/netBuffer.cpp:11-50 | with the first result that is neither bytes nor EINTR: the bytes before it are appended, in order; reported are their number on EAGAIN, an error on any other errno, a close exactly at the socket's end, so that a full buffer is never taken for one |
| NetBuffer.ScriptMeans | src/net/netBuffer.cpp:26-37 | the end and the bytes of every list of socket results, by its first one that is neither bytes nor EINTR |
| NetBuffer.Buffer.AnyRun | src/net/netBuffer.h:62-154 | every run of append, retrieve, retrieveAll and readFd is the same run on a plain byte queue, keeps r_ <= w_ < alloc_, and bounds the capacity by the first size and twice the peak demand |
| NetBuffer.SplitChunk | src/net/netBuffer.cpp:18-48 | reading part of what has arrived takes just that part off the stream |
| NetBuffer.FreshRun | src/net/netBuffer.h:62-150 | a new buffer after any run holds what a byte queue would, and its capacity fits an int when every demand of the run is below 2^30 |
| LogPipeline.AppendInv | src/log/asyncLogging.cpp:22-48 | an append keeps the pool invariant: `cur_` there, spare empty, no buffer with two owners |
| LogPipeline.CollectInv | src/log/asyncLogging.cpp:76-90 | the lock section keeps the pool invariant; the list swapped in is empty |
| LogPipeline.TrimInv | src/log/asyncLogging.cpp:91-102 | the overload rule keeps the pool invariant |
| LogPipeline.RefillShape | src/log/asyncLogging.cpp:107-121 | the refill never takes from an empty list, puts one of the first two buffers, emptied, wherever a spare is missing, and leaves the write list empty |
| LogPipeline.RefillInv | src/log/asyncLogging.cpp:107-121 | a round ends with an empty write list, both spares there and empty, and no buffer with two owners |
| LogPipeline.AppendPipeline | src/log/asyncLogging.cpp:22-48 | a record joins the end of the pipeline if and only if it is at most kLargeBuffer-2 bytes long; nothing else changes |
| LogPipeline.TrimPipeline | src/log/asyncLogging.cpp:91-102 | an overloaded round removes exactly the records of the third buffer onward, whole ones, and any other round removes nothing |
| LogPipeline.OverloadIs | src/log/asyncLogging.cpp:92-101 | in figures: 25 buffers or more leave the records of the first two, fewer leave all |
| LogPipeline.RoundWrites | src/log/asyncLogging.cpp:76-106 | a round writes everything appended before its lock section, behind what was written already; with 25 buffers or more, the first two |
| LogPipeline.AllocatesIff | src/log/asyncLogging.cpp:28-41 | a buffer is allocated exactly when the current one has no room and others already wait |
| LogPipeline.WriteOnePipeline | src/log/asyncLogging.cpp:104-106 | writing moves a buffer's records from the batch to the file, and changes nothing in the sequence |
| LogPipeline.RefillPipeline | src/log/asyncLogging.cpp:107-121 | emptying buffers for reuse touches no record that is not yet written |
| LogPipeline.NextFaithful | src/log/asyncLogging.cpp:22-124 | each step of either side, at any moment, keeps the pool invariant and the account of every record |
| LogPipeline.Execute | src/log/asyncLogging.cpp:22-124 | in every interleaving, what the back end has handed to the file ++ batch ++ `transBufVec_` ++ `cur_` is the history at strictly ascending indices, which leave out exactly what overloaded rounds dropped and records of kLargeBuffer-1 bytes |
| LogPipeline.HistoryIsAppended | src/log/asyncLogging.cpp:22-48 | that history is the records appended, in order |
| LogPipeline.BenignRun | src/log/asyncLogging.cpp:22-124 | without overload and without that one length, handed over ++ batch ++ waiting ++ filling is exactly what was appended |
| AsyncLogging.Logger.Append | src/log/asyncLogging.cpp:22-48 | the front end's call on the real fields is the append step, touching nothing of the back end's; it aborts exactly from kLargeBuffer bytes on |
| AsyncLogging.Logger.Collect | src/log/asyncLogging.cpp:76-90 | the swap on the real fields is the collect step |
| AsyncLogging.Logger.WriteBatch | src/log/asyncLogging.cpp:91-121 | the unlocked rest of a round, loop included, is trim, write and refill, on the back end's own fields only |
| LogFile.TookIs | src/log/fileUtil.cpp:138-155 | the bytes the partial-write loop hands over: all of them, or those of the writes before the first that takes nothing |
| LogFile.FileApp.Append | src/log/fileUtil.cpp:138-155 | what is taken is appended in order, without gap or repetition; -1 exactly when a write takes nothing before the end |
| LogFile.Roller.RollFile | src/log/logFile.h:36-56 | refused exactly when the clock is not past the last roll; otherwise the old file is kept as it is and an empty one opened |
| LogFile.Roller.AppendUnlocked | src/log/logFile.h:63-86 | an append on the real fields is the step the statements below are about |
| LogFile.AppendFiles | src/log/logFile.h:63-86 | whatever the branch, the record goes whole to the current file, which then stays or is closed for an empty one |
| LogFile.RecordsInOrder | src/log/logFile.h:63-86 | for all records, write results and clocks, the files in opening order are the records in order, none split between files |
| LogFile.RunInv | src/log/logFile.h:36-86 | opening times of the files strictly increase, the last is `lastRoll_`, the counter stays below `checkEveryN_` |
| LogFile.CountIsModulo | src/log/logFile.h:71-73 | the clock is looked at on exactly every checkEveryN-th append that stays within the size, whatever happens between |
| LogFile.ClosesIff | src/log/logFile.h:63-86 | in every run a call closes the file if and only if its clock is past the last roll and the file is too long, or it is this call's turn to look at the day and it is not that of the last roll; on the same day it flushes exactly after the interval |
| LogFile.SameDayIff | src/log/logFile.h:45-76 | two moments since 1970 have the same period exactly when they are on the same day |
| LogFile.DayIs | src/log/logFile.h:45-45 | the period of a moment since 1970 is the last multiple of 86400 seconds not after it |
| LogFile.OverlongIff | src/log/logFile.h:63-70 | a record goes to a file already beyond its roll size if and only if the call before asked for a new file at a second not past the last roll |
| LogFile.OverlongExample | src/log/logFile.h:36-70 | two records in the second the file was opened in: the first makes it too long, its roll is refused, the second follows it |
| LogFile.LengthBound | src/log/logFile.h:63-86 | each file exceeds the roll size by at most one record and those of its own records that were written right after refused rolls |
| LogDelivery.RecordsReachFiles | src/log/asyncLogging.cpp:66-106 | to the disk: in every run, with the back end's buffers and the lines that `LOG` sends to the same file written in any order, at any times and in any pieces that get on, the files in opening order hold whole records and whole lines; without the records they are the lines in order; without the lines, and with the records on their way, they are the appended records in order, less what an overloaded round dropped or no buffer takes |
| BoundedQueue.PutTurnInv | src/base/BoundedBlockingQueue.h:17-35 | one turn of `put` under the lock, sleeping or pushing and notifying one taker, keeps the wakeup invariant |
| BoundedQueue.TakeTurnInv | src/base/BoundedBlockingQueue.h:36-46 | one turn of `take` keeps it too |
| BoundedQueue.NextInv | src/base/BoundedBlockingQueue.h:17-46 | every call, resumption and spurious wakeup of any thread keeps it |
| BoundedQueue.Execute | src/base/BoundedBlockingQueue.h:17-46 | in every run: while a taker sleeps there are at most as many items as woken takers, while a putter sleeps at most as many free places as woken putters |
| BoundedQueue.FirstInFirstOut | src/base/BoundedBlockingQueue.h:17-46 | in every run, with what each call was given and who got through read off the calls alone: the items taken are exactly the first of those put, in the order in which their calls got them in; the rest is in the queue; and exactly the threads whose call has not been served wait |
| BoundedQueue.SleepersHaveReason | src/base/BoundedBlockingQueue.h:17-46 | takers sleep with none of their kind on the way only on an empty queue, putters only on a full one |
| BoundedQueue.StuckIff | src/base/BoundedBlockingQueue.h:16-46 | sleepers on both sides and nobody on the way are reachable if and only if the capacity is zero |
| EventLoop.NextInv | src/net/EventLoop.cpp:63-80 | every step of pushers, of the loop and of tasks that queue tasks keeps: run ++ running ++ pending = pushed, and pending work past the swap has a wakeup made or owed |
| EventLoop.ExactlyOnceNoLostWakeup | src/net/EventLoop.cpp:63-173 | in every run each task runs once, in the order of the pushes, and a loop in `epoll_wait` with work pending has a readable, armed eventfd unless some pusher has yet to write it |
| EventLoop.WokenLoopRuns | src/net/EventLoop.cpp:134-173 | from every such sleep the loop's own next steps run the first pending task |
| EventLoop.Loop.QueueInLoop | src/net/EventLoop.cpp:63-80 | pushes at the end; writes the eventfd exactly from another thread or while tasks run |
| EventLoop.Loop.DoPendingFunctors | src/net/EventLoop.cpp:160-173 | runs exactly the tasks that were pending, in order; what they queue and what other threads push meanwhile, their pushes and wakeups falling anywhere, is left for the next round in the order of the pushes, with a wakeup made for it or still owed |
| Registry.PerformIs | src/net/Epoller.cpp:40-67 | an enable or disable call leaves the channel listening with its new mask, or quiet and out of the kernel set, whatever its status was |
| Registry.PerformAgrees | src/net/Epoller.cpp:40-67 | it keeps both sides in agreement, gives the kernel nothing to refuse, and touches no other channel |
| Registry.RemoveAgrees | src/net/Epoller.cpp:69-82 | removal likewise, and leaves the descriptor in neither table |
| Registry.RunAgrees | src/net/Epoller.cpp:40-82 | after any sequence of calls on channels with distinct descriptors: LISTEN exactly when in the kernel set, with mask `events_`; in `channels_` exactly when LISTEN or NOT_LISTEN; NOT_LISTEN without events; every ADD, MOD and DEL was legal |
| Registry.MaskIsAsked | src/net/Channel.h:31-50 | after any sequence of calls a channel's mask is exactly what its own last calls about reading and writing asked for, and it is registered exactly when it was called since its last removal |
| Registry.EventBits | src/net/Channel.h:31-50 | each call sets or clears exactly its own bits, whatever the mask was |
| Epoller.Epoller.Perform | src/net/Channel.h:31-50 | the five calls of a channel on the real tables are those steps |
| Epoller.Epoller.RemoveChannel | src/net/Epoller.cpp:69-82 | removal on the real tables is that step |
| TcpOutput.SendInv | src/net/tcpConnection.cpp:209-291 | a send, with any write result, keeps conservation, interest in EPOLLOUT, and the half-close rules |
| TcpOutput.HandleWriteInv | src/net/tcpConnection.cpp:144-178 | so does a write event |
| TcpOutput.OutputConserved | src/net/tcpConnection.cpp:144-291 | in every run: bytes on the wire ++ output buffer = the messages sent between establishment and the first shutdown or close, less those that found nothing waiting and were refused with EPIPE or ECONNRESET; the bytes waiting are those the sends and the kernel's answers leave; until disconnection EPOLLOUT is asked for exactly while some wait; SHUT_WR comes exactly at a shutdown that finds nothing waiting or the write that takes the last byte afterwards, so at most once, with every message on the wire |
| TcpOutput.WireIsFinal | src/net/tcpConnection.cpp:302-312 | nothing is written after SHUT_WR: the wire stays as it is for the rest of the run |
| TcpOutput.PhaseIff | src/net/tcpConnection.cpp:362-374 | a connection takes messages if and only if it has been established and neither shut down nor closed since |
| TcpOutput.FirstMessageExample | src/net/tcpConnection.cpp:41-50 | a message sent after establishment goes out |
| TcpOutput.ShutdownCompletes | src/net/tcpConnection.cpp:80-90 | from any connected state a shutdown followed by a write event that takes everything ends in SHUT_WR with all messages out |
| TcpConnection.Connection.SendInLoop | src/net/tcpConnection.cpp:209-291 | the method on the real buffer and mask is the send step |
| TcpConnection.Connection.HandleWrite | src/net/tcpConnection.cpp:144-178 | the method on the real buffer and mask is the write step |
| TcpConnection.Connection.Shutdown | src/net/tcpConnection.cpp:80-90 | the method is the shutdown step |
| Lifecycle.CloseInv | src/net/tcpConnection.cpp:185-197 | a close takes a live connection to its last phase with exactly one task left to move it, and disturbs no other |
| Lifecycle.CloseHolding | src/net/tcpServer.cpp:102-112 | the destroying task is queued before `connectSet_` lets go: a closing connection has an owner in between and after |
| Lifecycle.EventInv | src/net/Channel.cpp:22-60 | a reported event, with any mask but the one below, any read result and any calls from user code, keeps the whole invariant |
| ConnectionEffects.ReportClosesIff | src/net/Channel.cpp:22-60 | a report closes its connection if and only if it is a hang-up without EPOLLIN, or carries EPOLLIN, EPOLLPRI or EPOLLRDHUP and the read finds the end, whatever user code does in the callback |
| ConnectionEffects.ReportWrites | src/net/Channel.cpp:55-59 | the write side of a connection that is not closed is looked at exactly when the report carries EPOLLOUT |
| ConnectionEffects.SendEffect | src/net/tcpConnection.cpp:228-290 | after a send EPOLLOUT is asked for exactly if it was before or bytes were left over; the write-complete callback is queued exactly if everything went out at once and one is set |
| ConnectionEffects.WriteEffect | src/net/tcpConnection.cpp:151-165 | a write event gives up EPOLLOUT exactly when the buffer is drained, and then queues the write-complete callback if one is set |
| ConnectionEffects.CallPhases | src/net/tcpConnection.cpp:80-103 | a call changes a phase exactly if it is a shutdown or a forced close on a connected connection, and then to disconnecting; no other connection's |
| ConnectionEffects.PointerEffect | src/net/tcpConnection.cpp:130-133 | a kept pointer owns the connection; letting go of it closes the socket exactly if nobody else has one |
| Lifecycle.AbortsIff | src/net/Channel.cpp:22-60 | dispatching a report fires the assertion of `handleClose` if and only if it is a hang-up without EPOLLIN that carries another read flag and the read finds the end |
| DoubleClose.AbortReachable | src/net/Channel.cpp:22-60 | a run from the start reaches such a report, for any connection and descriptor, and dispatching it fires the assertion |
| Lifecycle.TaskInv | src/net/tcpConnection.cpp:362-390 | each queued task (add, establish, forced close, destroy, notify) in its turn keeps the whole invariant and meets its assertions |
| Lifecycle.UnownedIsDone | src/net/tcpConnection.cpp:36-39 | a connection that nothing owns any more is disconnected and its channel is in neither table |
| Lifecycle.ReapInv | src/net/tcpConnection.cpp:36-39 | whenever an owner lets go (the tasks of a round, user code, the main thread at its return) only sockets of destroyed connections close, and no destructor's assertion fires |
| Lifecycle.CreateInv | src/net/tcpServer.cpp:70-88 | a new connection, on a descriptor the kernel may reuse as soon as its socket was closed, clobbers no entry |
| Lifecycle.NextInv | src/net/tcpServer.cpp:70-112 | every step of the main thread, of the loop and of user code keeps all of it |
| Lifecycle.OpenExactlyWhileOwned | src/net/tcpServer.cpp:77-112 | in every run a socket is open if and only if `connectSet_`, a queued task, the tasks of the round, the main thread's local pointer or user code owns its connection |
| Lifecycle.Execute | src/net/tcpServer.cpp:70-112 | the invariant holds after every list of events each of which could happen in its turn |
| Lifecycle.SafeLives | src/net/tcpServer.cpp:70-112 | in every run, with user code keeping and dropping pointers on any thread: no assertion fires, epoll refuses nothing, each connection is closed and destroyed at most once, a socket closes only after its connection was destroyed and is open exactly while that is owned, and every entry of either table belongs to an open socket owned by `connectSet_` or a queued task |
| Lifecycle.PhasesOnlyAdvance | src/net/tcpConnection.cpp:92-115 | between any two moments of any run no connection goes back in its phases, reopens, or is forgotten |
| Lifecycle.ClosedWithinARound | src/net/tcpConnection.cpp:377-390 | in every run a connection that is closed when a round of tasks begins has been destroyed and its channel removed when the round ends, whatever tasks, user code and the main thread do in between; its socket is still open then if and only if user code kept a pointer or the main thread has not returned from `newConnection` |
| Lifecycle.LastToLeaveCloses | src/net/tcpConnection.cpp:36-39 | the step by which the last owner lets go, whichever it is, leaves the socket closed and the connection destroyed once |
| LingeringRun.LingersReachable | src/net/tcpServer.cpp:77-88 | a run from the start, for any connection and descriptor, in which the round that destroys a connection ends with its socket open because the main thread has not returned; its return closes it |
| ForcedClose.RunAsked | src/net/tcpConnection.cpp:92-103 | in every run a forced close is queued only for a connection that was established |
| ForcedClose.CallAsksForClose | src/net/tcpConnection.cpp:92-103 | a call of `forceClose` in any callback, on a connection that is connected or disconnecting at that point, has the close queued when the callback's event is over |
| ForcedClose.ForcedWithinARound | src/net/tcpConnection.cpp:92-115 | from the call: whatever comes between a call of `forceClose` and the next round of tasks, and whatever happens in that round, the connection is closed when the round ends, before the next poll |
| ForcedClose.ForcedIsDestroyed | src/net/tcpConnection.cpp:105-115 | from the call: by the end of the round after that, whatever comes between the two, the connection is destroyed and its channel removed, its socket open exactly if somebody still points to it |
| SubLoop.SubLoop.HandleClose | src/net/tcpConnection.cpp:185-197 | keeps everything that runs keep, leaves the connection in its last phase, closed once, out of `connectSet_` but still owned, with exactly one task left to move it |
| SubLoop.SubLoop.RmConnect | src/net/tcpServer.cpp:109-110 | asks that a task hold the connection before the set lets go of it, and leaves it owned |
| SubLoop.SubLoop.DispatchAll | src/net/EventLoop.cpp:137-147 | the loop over the active channels is exactly their dispatch, in order, and keeps the invariant |
| SubLoop.SubLoop.DoPendingFunctors | src/net/EventLoop.cpp:160-173 | for every interleaving with the main thread and user threads, a round on the real fields is exactly those steps, runs exactly as many tasks as were there at its start, and then gives up their ownership |
| LoadBalance.GetNextLoop | src/net/EventLoopThreadPool.cpp:12-22 | with nothing draining meanwhile, the first loop with the fewest connections |
| LoadBalance.QuietCompare | src/net/EventLoopThreadPool.cpp:16-20 | a comparison in which nothing drains, whichever size is read first, keeps the first of the smallest so far |
| LoadBalance.QuietScan | src/net/EventLoopThreadPool.cpp:12-22 | a scan in which nothing drains picks the first of the smallest |
| LoadBalance.CompareInv | src/net/EventLoopThreadPool.cpp:16-20 | one comparison of a scan, its two sizes read in either order at different moments while loops drain, leaves the best so far within what was in flight in the loops looked at |
| LoadBalance.LoadsStayEven | src/net/tcpServer.cpp:75-87 | however connections arrive, loops drain and the reads of a scan fall between the drains, with at most L additions queued when a scan begins, true loads differ by at most L+1 |
| LoadBalance.BoundIsTight | src/net/EventLoop.cpp:97-108 | for every L some run does get L+1 apart |

## Left out

- `sendFile` in `sendInLoop` and the `pread` mode of `readFd`: no stream property is kept there (src/net/tcpConnection.cpp:218-239, src/net/netBuffer.cpp:20-22).
- `startRead` and `stopRead`: they use an uninitialised flag and nothing calls them.
- Calls on a connection from other threads: `send`, `shutdown` and `forceClose` are loop-thread calls here, and message pointers are values.
- Logger construction and shutdown: the back end may leave its loop without a last drain, so nothing is said of records held at that moment.
- AsyncLogging.Logger.WriteBatch: `file.append` is taken to write a whole buffer, and a buffer is the list of records copied into it; cut writes are in `LogFile`, and `LogDelivery` puts the two together.
- LogDelivery.RecordsReachFiles: writes that stop before the end of a buffer or line are in `LogFile.RecordsInOrder` only; what `LOG` sends before `threadFunc` has set the file is not modelled.
- LogFile.Roller.constructor: asks for a clock past 1970, without which the source has no file; file names, and what an earlier process left in a file of the same name, are not modelled.
- NetBuffer.Buffer.ReadFd: the floating-point test `writeable() <= 0.2 * alloc_` is `5 * writeable <= alloc`.
- NetBuffer.Buffer.Retrieve: a negative length, which the source's assertion lets through, is not modelled, nor are `int` indices beyond what `FreshRun` says.
- HttpParser.Parser.Parse: comparisons with `strncmp` and `starts_with` stop at the end of the bytes instead of reading on; `cur_ + len` does not wrap round at 2^31.
- HttpServer.HttpMessageCallback: the response itself (status, file contents) is not modelled, whether a file opens is a parameter, and a POST whose file does not open, which ends the process, is left out.
- HttpServer.HangUp: a hang-up report that also makes the channel read, and so parses once more what a closed connection holds, is not in sessions; nothing of it is answered.
- HttpServer.ServeStream: requests parsed after a failed one has shut the connection down are not compared with the stream, whose framing is lost by then; none of them is answered.
- BoundedQueue.PutTurnInv: a blocked call is turns of a state machine, not a method, since it gives up the lock in its middle; the circular buffer is a sequence.
- EventLoop.NextInv: `quit`, tasks queued by the loop thread before `loop()`, and the saturation of the eventfd counter are not modelled.
- Lifecycle.Execute: one sub-loop; the accepting thread takes part through `newConnection` only, other threads by letting pointers go; `epoll_ctl` fails only for an ADD of a present or a MOD or DEL of an absent descriptor.
- LoadBalance.LoadsStayEven: no connection is removed; a removal changes loads by itself.
- `threadPool`, `EventLoopThread`, teardown of loops and servers, `WeakCallback`, singletons, the coroutine library, sockets, addresses, `mmap`, time, log macros, `Acceptor`, the unbounded `BlockingQueue`: wrappers, or easier cases of what is here.
