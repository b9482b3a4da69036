# ftserver: a verified model of its file transfer

ftserver receives FITS files from camera clients over TCP and saves them. This project models the
parts of it that interlock during a transfer, and proves what they keep together:

- **Transfer** (`Receiver`, `Transfer`, `TransferInv`, `TransferSteps`, `TransferShared`, `TransferRuns`, `TransferDisk`,
  `TransferSafety`, `TransferPaths`, `TransferProgress`, `TransferBound`, `TransferAtomic`, `TransferDeadlock`, `TransferCut`): any number of connections, each with a
  client, a network thread and a message thread, and one writer thread. They share `FileInfo` objects,
  a queue, and the reference counts that decide whether a receiver may reuse its object. Every handler
  is cut into the steps another thread can get between, and every interleaving of them is covered.
- **The receiver object** (`FileReceiver`): the callback and the handlers as methods over real objects
  and arrays, each proved to do the steps of the machine in `Receiver`, which the transfer model runs.
- **Connections** (`Network`, `CircularBuffer`, `TcpClient`, `Framing`): the receive ring, lookup and read, and
  the send pump with its single asynchronous write; lines read from a ring.
- **Messages** (`CText`, `Protocol`, `AsciiProtocol`): the text form of fileinfo and filestat, printer and
  parser as values and as the loops and buffers that run, including the pool of ten output slots.
- **Message queue** (`MessageQueue`): two priorities, dispatch, and stopping.
- **Writer and storage** (`FileStore`, `FileWritter`, `Monitor`, `MonitorStops`, `Storage`): reassembly of a file, the writer's
  queue and error counter, and the choice of the disk.

A class proved against a specification function and the lemmas about that function belong together:
`FileWritter.ThreadMonitor` and `Monitor.Run`, `MessageQueue.ThreadMessage` and `MessageQueue.Run`,
`AsciiProtocol.Resolve` and `Protocol.Resolve`, `FileReceiver` and `Receiver.Next`, `HandleRead` and `TakeNextLine` with
`Framing.Step`. The transfer model uses `Receiver.Next`, `FileStore.Arrived` and `Protocol.Resolve`, the same
functions that the methods are proved against.

## What the proofs found

- **A fileinfo can be lost.** `on_receive_complete` writes status 2 while `state_` is COMPLETE and only then
  sets WAITING; `network_receive` ignores what it reads in between (src/FileReceiver.cpp:53-60, 114-125). A client that
  answers status 2 at once with its next fileinfo may wait for status 1 for ever. `TwoSmallFilesCanHalt`
  gives a run; `AnyHandshakeCanHalt` shows that every handshake with a further file can end that way;
  `LostExactly` and `HandshakeProgress` give the exact condition, and `UninterruptedProgress` shows that keeping
  reads out of that handler cures it.
- **A saved file can be cut, or replaced.** The result of `fwrite` is not looked at, and the file leaves the
  queue all the same; `fopen` with "wb" empties whatever stood at the path (src/FileWritter.cpp:99-112). So a file
  is found whole at its path if and only if the last write to that path left just its bytes; all files
  are, if and only if no two that went to one path differ and the last write to each path was not
  short (`FoundExactly`). With plain names that differ from file to file this comes down to
  short writes alone (`DifferentNamesFound`). Any file of any client can end up cut to any length
  (`AnyCutCanHappen`, `SmallFileCanBeEmptied`), and without a single short write a file is gone when its client
  sends another one with its names (`EarlierFileIsGone`, `SmallFileCanBeReplaced`).
- **The writer may stop on failures that do not follow one another.** A success clears the error counter
  only if another file is queued when the next turn begins (src/FileWritter.cpp:74-81). `StopsOnConsecutive` gives the
  exact condition over whole runs, `NotConsecutive` a run. Independently of that, the last save may succeed:
  the counter is raised before the save it is checked after (src/FileWritter.cpp:73-83), so the
  loop ends after five failures and a success, or after six failures (`CounterMeans`).
- **`Read` from a position other than 0** copies from there but erases the front (src/tcpasio.cpp:144-145),
  against its documentation in src/tcpasio.h, and an unbuffered `Read` erases nothing.
  `ReadClearsWhatItCopied` gives the exact condition for both modes. The model follows the code.
- **Quitting overtakes** (src/MessageQueue.cpp:37-42, 60-67): messages posted before `Stop` are not handled (`StopOvertakes`).

## Conventions

- A client conforms when it sends a fileinfo whose strings contain no comma, equals sign, NUL or
  newline and no outer white space, whose line fits an output slot, and whose size is positive; waits
  for status 1; sends exactly that many bytes in pieces of at most 1500; and waits for status 2. A
  client may stop anywhere or hang up. A control line is read in one piece; data is cut anywhere.
- A path is made of the root path in force when `save_first` begins, the subpath and the file name. Which file
  it stands for is a parameter of `FoundExactly`; below root paths that are not nested, plain names
  (one component each, not "." or "..", at most 255 characters) that differ are different files. A file
  name that is empty, "." or ".." names a directory and cannot be written. That a client's files have
  names of their own is its client's business: nothing in the code or its documentation asks for it.
- The runs that are claimed to exist use names that can be opened below an empty root path
  (`FileStore.Storable`). The safety results cover all other names as well.
- The socket takes a status line as a whole in the transfer model; `FileReceiver.NotifyStatus` covers every
  shorter part. After a part only, a client would go on waiting as well.
- Text is a sequence of characters, with ASCII classes and case as in the C locale. `atoi` is the one of glibc:
  saturating to a 64-bit `long`, then cut to a 32-bit `int`.
- Free disk space, results of file operations, completions of reads and writes, and everything the
  other threads do are parameters. The contents of a fresh buffer are arbitrary.

## Model

| member | source | states |
|---|---|---|
| TransferSafety.EndToEnd | src/FileReceiver.cpp:53-135 | after every run of any number of conforming clients, write j was of the j-th queued file: its metadata, and as many of the bytes its client sent as the write took; the files still queued are complete; no stale byte, whatever the chunking and the reuse of buffers |
| TransferSafety.WholeExactly | src/FileWritter.cpp:101-112 | after every run, every write was of all the bytes of its file if and only if no step of the run was a write that took fewer bytes than the buffer holds |
| TransferPaths.FoundExactly | src/FileWritter.cpp:87-112 | after every run, for any earlier contents of the disk and any way root paths and names stand for files: a written file is found whole at its path if and only if what the last write to that path left equals its bytes; all are, if and only if no two files of one path differ and the last write to each path was not short |
| TransferPaths.DifferentNamesFound | src/FileWritter.cpp:87-112 | if all files have plain names that differ and no root path lies below another, every written file is found whole at its path after every run if and only if no write was short |
| TransferPaths.PathsDiffer | src/FileWritter.cpp:89-99 | different plain names, or root paths that are not nested, give different paths |
| TransferCut.AnyCutCanHappen | src/FileWritter.cpp:101-112 | for all conforming clients, any of them, any of its files and any length up to that of the file, some run saves the files before it whole and just that many bytes of it |
| TransferCut.AnyCuts | src/FileWritter.cpp:87-123 | some run saves any number of the files of a client, each cut to a length of its own |
| TransferCut.SmallFileCanBeEmptied | src/FileWritter.cpp:101-112 | a concrete conforming client of whose only file nothing is left |
| TransferCut.EarlierFileIsGone | src/FileWritter.cpp:99-101 | for any client and any two of its files with the same names and different bytes, a run without a short write after which the later one is found at their path and the earlier one is not |
| TransferCut.SmallFileCanBeReplaced | src/FileWritter.cpp:99-101 | a concrete client with two such files |
| TransferSafety.QueuedOnce | src/FileReceiver.cpp:114-118 | a file is in the log if and only if the writer was running when it was handed over, never twice, and in the order its client sent it |
| TransferSafety.CountsAreExact | src/FileReceiver.cpp:85-87 | the count tested for reuse equals references held by receivers, queue and writer, in every reachable state |
| TransferSafety.QueuedIsFrozen | src/FileReceiver.cpp:85-96 | no step of any thread changes an object that is queued or held by the writer |
| TransferSafety.NoOverflow | src/FileWritter.h:52-56 | whatever data a read delivers fits the rest of the buffer |
| TransferSafety.StatusDiscipline | src/FileReceiver.cpp:114-135 | statuses alternate 1, 2, 1, 2; 3 and the failure state never occur; the completion message of a file is posted once, and was posted if and only if all its bytes were sent and read and its status 2 was not yet answered |
| TransferRuns.StepKeeps | src/FileReceiver.cpp:53-135 | every step of every thread keeps the invariant of the system |
| TransferProgress.WorksDecreases | src/FileReceiver.cpp:53-135 | every step of a handshake makes the measure (phase, bytes outstanding, work of the message thread, as one number) smaller |
| TransferBound.HandshakeEnds | src/FileReceiver.cpp:53-135 | from any reachable state, a handshake takes no more steps than its measure until the next fileinfo; where no step is left on a connection that is up, its client has status 2 if and only if no line of it was ever dropped |
| TransferProgress.LostExactly | src/FileReceiver.cpp:53-60 | a fileinfo is lost if and only if a line of the connection was read while the state was COMPLETE |
| TransferProgress.HandshakeProgress | src/FileReceiver.cpp:72-135 | while a client waits, a step of its handshake is enabled if and only if it is not the case that a fileinfo was dropped and the message thread is idle |
| TransferAtomic.UninterruptedProgress | src/FileReceiver.cpp:114-125 | if no read of the connection completes inside on_receive_complete, a step is enabled whenever the client waits |
| TransferAtomic.NeverDrops | src/FileReceiver.cpp:53-60 | under the same condition no step of the run drops a line |
| TransferDeadlock.AnyHandshakeCanHalt | src/FileReceiver.cpp:114-125 | from every state before status 2 of a client with a further file, some schedule leads to a halt that no continuation ends: the client waits for status 1 of the same file after every further run, and no step of its handshake is enabled again unless the connection breaks |
| TransferDeadlock.AnyHandshakeCanFinish | src/FileReceiver.cpp:72-135 | from every such state some schedule brings the current file to its status 2 |
| TransferDeadlock.TwoSmallFilesCanHalt | src/FileReceiver.cpp:119-124 | a concrete client with two one-byte files can be left waiting for status 1 for ever, in the same sense |
| TransferDeadlock.HaltStays | src/FileReceiver.cpp:53-60 | a state without a step for a waiting client stays one, whatever the other connections and the writer do |
| Receiver.CloseComesLast | src/FileReceiver.cpp:53-60 | for any behaviour of the client, and with reads that complete after the socket was closed, the close message is posted at most once and last, and tcpptr_ is not null wherever it is used |
| FileReceiver.FileReceiver.CoupleNetwork | src/FileReceiver.cpp:25-47 | registers the three handlers, starts the queue, registers the callback with the connection, and leaves the receiver in the start state of the machine; if the queue cannot be created the connection is left alone |
| FileReceiver.FileReceiver.RegisterMessages | src/FileReceiver.cpp:62-70 | adds one handler to each of the three messages and touches no other |
| FileReceiver.FileReceiver.NetworkReceive | src/FileReceiver.cpp:53-60 | is the step of the machine for a completed or failed read; in state READY the bytes read are appended to the file, otherwise the file stays as it was |
| FileReceiver.FileReceiver.OnNetworkReceive | src/FileReceiver.cpp:72-108 | is the steps of the machine for what the line says: the socket is closed, nothing happens, or an object describes the announced file, status 1 is written and the state is READY; the old object is kept exactly when nobody else holds it and the size fits, and is unchanged when not |
| FileReceiver.FileReceiver.Renew | src/FileReceiver.cpp:85-87 | the object is kept exactly when the reuse rule of the transfer model allows it, and otherwise the reference counts change as in that model |
| FileReceiver.FileReceiver.OnReceiveComplete | src/FileReceiver.cpp:114-125 | a complete file is queued if the writer runs, unchanged and with one reference more, and status 2 is written; an incomplete one only gets status 3; the state is WAITING |
| FileReceiver.FileReceiver.OnNetworkClose | src/FileReceiver.cpp:110-112 | tcpptr_ is reset and nothing else changes |
| FileReceiver.FileReceiver.NotifyStatus | src/FileReceiver.cpp:127-135 | the state is set and the status line written to the socket, the file untouched |
| FileReceiver.FileReceiver.HandleMessage | src/MessageQueue.cpp:84-88 | taking and handling the next message is a sequence of steps of the machine, for each of the three messages |
| FileReceiver.ReceiveEventsDo | src/FileReceiver.cpp:72-108 | what on_network_receive does as a whole is the run of its separate steps |
| FileReceiver.CompleteEventsDo | src/FileReceiver.cpp:114-125 | what on_receive_complete does as a whole is the run of its separate steps |
| FileReceiver.StatusLineFits | src/FileReceiver.cpp:127-135 | a status line fits an output slot |
| CircularBuffer.CircularBuffer.PushBack | src/tcpasio.cpp:185 | appends; a full buffer loses its oldest element |
| CircularBuffer.CircularBuffer.EraseBegin | src/tcpasio.cpp:145 | removes exactly the n oldest elements |
| CircularBuffer.CircularBuffer.Linearize | src/tcpasio.cpp:212 | keeps the contents and lays them out from the start of the array |
| TcpClient.TCPClient.UseBuffer | src/tcpasio.cpp:69-81 | the mode is set, and both rings are empty with 15000 places when buffering |
| TcpClient.TCPClient.RegisterRead | src/tcpasio.cpp:94-98 | the function registered last is the only one called after a read |
| TcpClient.TCPClient.Lookup | src/tcpasio.cpp:116-134 | the result is the first occurrence from the given position, or -1 exactly when there is none |
| TcpClient.TCPClient.Read | src/tcpasio.cpp:136-153 | which bytes are copied, how many, that nothing else in the target changes, and what is left in the ring, in both modes |
| TcpClient.ReadClearsWhatItCopied | src/tcpasio.cpp:136-153 | what is left is what the documentation says, for all contents, if and only if nothing is asked for, the position is past the end, or the client is buffered and reads from the front |
| TcpClient.TCPClient.Write | src/tcpasio.cpp:155-170 | accepts as many bytes as there is room for, overwrites nothing, and never disturbs a write in flight |
| TcpClient.TCPClient.StartWrite | src/tcpasio.cpp:209-216 | runs only when no write is in flight; the whole buffer is in flight afterwards |
| TcpClient.TCPClient.HandleRead | src/tcpasio.cpp:180-190 | the ring is the latest 15000 bytes of its contents and the chunk; unread bytes stay a suffix of the stream, and taken bytes followed by the ring are the stream unless it overran; the registered functions are called, and the next read is started unless this one failed or the socket is closed |
| TcpClient.TCPClient.HandleWrite | src/tcpasio.cpp:192-199 | bytes on the wire followed by the buffer stay the accepted bytes, and a write is in flight exactly when the buffer is not empty, until a write fails |
| TcpClient.SuffixKept | src/tcpasio.cpp:183-186 | pushing a chunk, with or without overrun, keeps the ring a suffix of the stream |
| Framing.RingIsSuffix | src/tcpasio.cpp:180-190 | over every run of reads and lines taken: the ring is a suffix of the stream, and without overrun the lines and the ring make up the stream |
| Framing.DrainedIsFraming | src/FileReceiver.cpp:72-79 | draining yields exactly the newline-terminated lines of the stream and leaves the unfinished tail |
| Framing.OneFraming | src/AsciiProtocolBase.h:4-10 | a stream has only one division into lines and tail |
| Framing.ChunkingIsIrrelevant | src/FileReceiver.cpp:72-79 | two runs over the same bytes end with the same lines and tail, however the bytes were cut and whenever lines were taken |
| Framing.TakeNextLine | src/FileReceiver.cpp:73-78 | lookup of the newline and read up to it is the step of the framing machine on a real client |
| Protocol.InfoSurvives | src/AsciiProtocol.cpp:105-120 | a fileinfo equals its printed and parsed form if and only if its strings are clean, its time is empty and its size is an int |
| Protocol.StatSurvives | src/AsciiProtocol.cpp:122-128 | the same for filestat |
| Protocol.ParsePrintParse | src/AsciiProtocol.cpp:131-160 | for every input that is understood, printing and parsing the result gives it back |
| Protocol.ParsedIsClean | src/AsciiProtocol.cpp:57-67 | whatever the parser returns lies in the domain of the round trip |
| Protocol.InfoRoundTrip | src/AsciiProtocol.cpp:204-224 | a clean fileinfo is read back from its line, with or without the newline; trimming removes only the last comma |
| Protocol.StatRoundTrip | src/AsciiProtocol.cpp:226-238 | the same for filestat |
| Protocol.UnknownTokenIgnored | src/AsciiProtocol.cpp:204-224 | an empty, malformed or unknown token changes nothing, wherever it stands |
| Protocol.OrderIsIrrelevant | src/AsciiProtocol.cpp:204-224 | tokens that do not conflict give the same message in any order and number |
| Protocol.LastValueAppend | src/AsciiProtocol.cpp:211-221 | a later token with the same keyword wins |
| CText.AtoiInverse | src/AsciiProtocol.cpp:220 | an int is read back from its decimal text |
| CText.DigitsValueInverse | src/AsciiProtocol.h:126-130 | printing and reading a natural number |
| AsciiProtocol.AsciiProtocol.NextSlot | src/AsciiProtocol.cpp:48-55 | the text stands in its slot, ended by a NUL, and the last ten results are intact |
| AsciiProtocol.SlotsApart | src/AsciiProtocol.cpp:48-55 | results fewer than ten calls apart never overlap, and a slot comes back exactly every ten calls |
| AsciiProtocol.AsciiProtocol.OutputCompacted | src/AsciiProtocol.cpp:48-55 | trims, prints into the next slot, and keeps the last ten results intact |
| AsciiProtocol.AsciiProtocol.JoinKv | src/AsciiProtocol.h:126-130 | appends one pair to the text of the pairs before it |
| AsciiProtocol.AsciiProtocol.CompactFileInfo | src/AsciiProtocol.cpp:105-120 | leaves the line of the message in the next slot; a null message gives no result |
| AsciiProtocol.AsciiProtocol.CompactFileStat | src/AsciiProtocol.cpp:122-128 | the same for filestat |
| AsciiProtocol.AsciiProtocol.ResolveKv | src/AsciiProtocol.cpp:57-67 | keyword and value of a token, and whether both are present |
| AsciiProtocol.AsciiProtocol.ResolveFileInfo | src/AsciiProtocol.cpp:204-224 | assigning token by token gives each field its last value |
| AsciiProtocol.AsciiProtocol.ResolveFileStat | src/AsciiProtocol.cpp:226-238 | the same for the status |
| AsciiProtocol.AsciiProtocol.Resolve | src/AsciiProtocol.cpp:131-160 | scanning type and tokens by loops gives the message that the round trips are about |
| AsciiProtocol.InfoOneMore | src/AsciiProtocol.cpp:209-221 | what one more token does: the one field its keyword names takes its value |
| MessageQueue.LanesAreFifo | src/MessageQueue.cpp:30-42 | in every run, messages of one priority received and still queued are those sent, in order |
| MessageQueue.HighestFirst | src/MessageQueue.cpp:84-85 | the message received next has the highest priority of all that wait |
| MessageQueue.PostsAreFifo | src/MessageQueue.cpp:30-35 | as long as everything is posted the queue is one first-in first-out line |
| MessageQueue.StopOvertakes | src/MessageQueue.cpp:60-67 | the quit message of Stop is received before every posted message, and is the last one received |
| MessageQueue.NothingAfterQuit | src/MessageQueue.cpp:84-88 | after a quit message nothing is received |
| MessageQueue.MessageQueue.RegisterMessage | src/MessageQueue.cpp:22-28 | connects the function if and only if the number is in range, and no other |
| MessageQueue.MessageQueue.PostMessage | src/MessageQueue.cpp:30-35 | enters a message of the low priority, if the queue exists |
| MessageQueue.MessageQueue.SendMessage | src/MessageQueue.cpp:37-42 | enters a message of the high priority, if the queue exists |
| MessageQueue.MessageQueue.Start | src/MessageQueue.cpp:44-58 | an empty queue and a thread, unless there is one already or the queue cannot be created |
| MessageQueue.MessageQueue.ThreadMessage | src/MessageQueue.cpp:77-89 | the loop is a run of the queue, and the calls made are those registered for the messages received, in order |
| MessageQueue.MessageQueue.Stop | src/MessageQueue.cpp:60-67 | no message that was only posted is handled any more, and queue and thread are gone |
| FileWritter.FileInfo.DataArrive | src/FileWritter.h:52-56 | the chunk stands behind the bytes received before, everything else as it was; true when the size is reached |
| FileWritter.FileWritter.NewFile | src/FileWritter.cpp:54-62 | queued at the end and one reference more, only while the writer runs |
| FileWritter.FileWritter.SaveFirst | src/FileWritter.cpp:87-123 | with files arriving meanwhile, the file saved, cut to what the write takes, is the one that was first and the one removed; its path below the root path now holds just what was written; a failure leaves queue and paths as they were; references from outside the queue are as before |
| FileWritter.FileWritter.ThreadMonitor | src/FileWritter.cpp:64-85 | the loop is a run of the monitor, while the root path changes; the writes are of the images of the saved files, each cut to what its write took, and the paths hold what these writes left; reference counts match the queue; the writer runs if and only if the counter is below 5 |
| Monitor.Conservation | src/FileWritter.cpp:54-123 | files saved followed by the queue are the files that arrived, in order |
| Monitor.CounterMeans | src/FileWritter.cpp:71-83 | counter plus one for a failed last save is the number of failures since the last reset; at the end there were five or six |
| Monitor.ClearedExactly | src/FileWritter.cpp:74-81 | one turn: after a success it ends with a cleared counter if and only if the counter was zero or a file is queued when the turn begins |
| MonitorStops.StopsOnConsecutive | src/FileWritter.cpp:71-83 | when the loop of any run stops, the failures since the counter was last cleared follow one another if and only if no turn since then began with an empty queue after a success while errors were counted |
| Monitor.SixAttempts | src/FileWritter.cpp:71-83 | from a clear counter, with every save failing, exactly six attempts are made |
| Monitor.NotConsecutive | src/FileWritter.cpp:71-83 | a run in which the writer stops although every file was saved |
| Storage.TransferAgent.FindStorage | src/TransferAgent.cpp:70-83 | the first disk in cyclic order with enough space, or none exactly when no disk has enough |
| Storage.TransferAgent.StartService | src/TransferAgent.cpp:18-44 | succeeds if and only if the settings agree, some disk has space and the server can be created; the writer then stores on the first disk with space |
| Storage.TransferAgent.FreeStorage | src/TransferAgent.cpp:85-114 | the writer's path stays that of the selected disk, which is the first with space or the next one in turn |
| Storage.TransferAgent.AutoFree | src/TransferAgent.cpp:85-114 | the same over any number of runs while the free space changes |
| Storage.Rotation | src/TransferAgent.cpp:92 | after k runs without space the index is start plus k, going round |
| Storage.EveryDiskOnce | src/TransferAgent.cpp:91-112 | as many such runs as there are disks select every disk exactly once |

## Left out

- FileReceiver.FileReceiver.NetworkReceive: requires that data fits the rest of the buffer, which TransferSafety.NoOverflow shows for conforming clients; the code does not check it.
- FileReceiver.FileReceiver.OnNetworkReceive: requires a newline in the bytes read and an announced size that is not negative; without them the code writes before its buffer or fails to allocate.
- FileReceiver.FileReceiver.HandleMessage: requires of the received line what OnNetworkReceive requires of it.
- FileReceiver.FileReceiver.NotifyStatus: the socket takes the first k bytes of the line; an exception from a write on a closed socket is not modelled.
- TcpClient.TCPClient.HandleRead: storing the bytes is one step, and which functions are called is all that is said of the callbacks (FileReceiver.FileReceiver.NetworkReceive is the one a receiver registers); that an unbuffered client may be read while the next bytes arrive is not captured.
- TcpClient.TCPClient.Write: of an unbuffered write only the number of bytes taken is modelled.
- Storage.TransferAgent.FreeStorage: which files are removed from a disk is not modelled, nor is an index configured outside the list of disks.
- Storage.TransferAgent.StartService: whether the server can be created is a parameter; clock and threads are not started.
- FileWritter.FileWritter.SaveFirst: whether directory and file can be created, and how much the write takes, are parameters; the database entry is left out.
- TransferPaths.FoundExactly: files that the cleaning of a full disk removes (src/TransferAgent.cpp:103-107) are not taken away again.
- FileWritter.FileWritter.UpdateStorage: the notification file is left out.
- MessageQueue.MessageQueue.ThreadMessage: messages that handlers post arrive as separate events after the handler; a sender blocked by a full queue is not modelled.
- AsciiProtocol.AsciiProtocol.OutputCompacted: requires that the line fits its slot; the code does not check it.
- AsciiProtocol.AsciiProtocol.NextSlot: requires the same of its text.
- AsciiProtocol.AsciiProtocol.CompactFileInfo: requires the same of the line of its message.
- Control lines split or merged in unbuffered mode, bytes beyond the announced size, sizes of zero or less, and heartbeats during a handshake are outside the rules for clients.
- The data races of the writer: its queue is touched without a lock, and a notification can be missed; arrival and wake-up are one step here, without spurious wake-ups.
- Locks: each step of the models is what the code does under a lock or without a shared variable.
- AsciiProtocol.AsciiProtocol.Resolve: cooler and vacuum messages are recognised, but their fields (floating-point text) are not modelled.
- Boost's sockets, queues, signals and threads, connecting and accepting, the overload of Lookup for one character.
- NTP client, database transfer, logging, daemon, parameter file, removal of old files and templates, and the removal of dead receivers.
