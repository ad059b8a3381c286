# libcomm: the TCP server's connection table and the Named Pipe TCP Proxy

This project models two things of libcomm and proves properties of them over
every run:

- the **multi-client TCP server**: a listen thread that accepts clients into a
  table of 32 slots behind a counter, and one receive thread per client that
  tears its own connection down;
- the **Named Pipe TCP Proxy (NPTP)** built on it: up to 64 mappings, each of
  which pairs a one-user TCP server with a reconnecting IPC stream client, the
  service that starts, watches and stops them, and the configuration text they
  come from.

`dafny verify dfyconfig.toml` checks all of it.

## How it is built

Each layer has two faces. The **machine** is a datatype and a step function: one
step per C statement that touches shared state, with what the operating system
answers (descriptors, addresses, failures) as part of the step. The **code** is
a class with the fields the C structure has, and methods with the C loops and
branches. Each method is proved to leave the state that the machine's function
gives; the lemmas are about the machine, over every interleaving of its steps.

| module | what it is |
|---|---|
| `Ledger` | logs of acquire and release; `Held` replays one and fails on a double close, a double free or a live number handed out twice |
| `TcpTable`, `TcpSafety`, `TcpUninit` | the connection table as a machine; its invariant over every run; taking it down, broadcasting, the schedules that go wrong |
| `TcpServer` | the code of `comm_tcp_server.c` over an array of slots |
| `IpcStream` | the code of the client half of `comm_ipc_stream.c` |
| `Proxy`, `ProxySafety` | one mapping as a machine, with both directions of forwarding |
| `Mapping` | the code of `nptp_proxy.c` for one mapping: the `tMapping` record and its callbacks |
| `Text`, `Records` | the code of the text helpers of `nptp_xml.c`; the record decoder of `nptp_event.c` |
| `Service`, `ServiceSafety` | the service as a machine: staged start-up, mappings running, the monitor, "exit", shut-down round by round |
| `TakeDown`, `StartUp` | the shut-down and start-up routines, run without interruption, as runs of that machine |
| `Progress` | a client that leaves makes room; from every state the service can still reach its end |
| `Effects` | what each operation achieves, where the modules above say what it keeps |
| `Conversation` | an exchange between a client and a pipe, from the very start of the service |
| `NptpServer` | the code of `nptp_serv.c`, `nptp_event.c`, `nptp_xml.c` and the loops of `nptp_proxy.c` over the global table |

### Granularity and the operating system

- A receive thread's end is five steps: close, exit callback, slot clear, guarded
  decrement, free. Accepting a client is four steps in the split machine (start
  the thread, accept callback, slot publication, counter increment) and one in
  the atomic machine. Everything above the table uses the atomic one.
- `proxy_connectIpc`, each callback, each send, and the IPC client's end of
  stream are single steps. So is each stage of the main thread: one mapping launched,
  one connected, the watches set or withdrawn, the control socket opened or closed,
  one client disconnected, one server ceased, one mapping freed; and each event
  record the monitor gets to. Steps of all mappings interleave with the stages,
  those of shut-down and of a failed start-up's take-down included, with the records
  and with "exit".
- A descriptor handed out is positive and not open; an address handed out is not
  NULL and not allocated. Both come back into use after a close or a free. `malloc`,
  `socket`, `bind`, `listen`, `accept`, `connect`, `pthread_create`, `getcwd`,
  `inotify_init` and `inotify_add_watch` may each fail. A send takes the whole chunk
  or fails.
- The requested user limit is any integer; a negative one, which the code does not
  clamp, gives a server that admits nobody.
- A TCP server is taken down when none of its own receive threads is between its
  close and its free. Other mappings may be anywhere in theirs. `OfferedRunExact`
  shows that a run stays good exactly when this is so at each of its take-downs,
  `EarlyUninitDangles` what happens otherwise, and `EveryServiceCanFinish` that such a
  moment always comes within reach.

### Where the code does not meet a property

Each of these is stated with the exact condition under which the code does meet it.

- **Publication after the thread starts.** The accept routine starts the receive
  thread before it publishes the slot. In the split machine the invariant holds
  throughout a run exactly when the run is orderly: no data or exit callback before
  the accept callback, no slot scan before the publication, no decrement at 0 before
  the increment (`TcpSafety.RunExact`). Any server with room for one more client has
  a run that publishes a freed user (`TcpUninit.DisorderPublishesFreedUser`).
- **Broadcast.** Returning early on a zero counter skips somebody exactly when an
  accept stands between publication and increment, the counter is 0 and a listed
  descriptor is open (`TcpUninit.EarlyReturnExact`). The first client of any server
  comes to that point, without any disorder (`TcpUninit.BroadcastSkips`,
  `TcpUninit.BroadcastSkipsFirst`).
- **Taking a server down** leaves no thread that can still touch it exactly when no
  teardown is under way before its free and no accept is in flight
  (`TcpUninit.UninitExact`). Right after any client's end of stream it
  leaves one (`TcpUninit.EarlyUninitDangles`).
- **Long pipe texts.** `decomposePathName` copies without looking at the fields'
  sizes. It stays inside both fields and leaves both terminated exactly when the text
  fits them (`Text.DecomposePathName`); a configuration is read without going past a
  field exactly when every element that is given a place fits
  (`NptpServer.NptpService.ParseTagMapping`). A name of 80 bytes does not
  (`Text.LongNameDoesNotFit`, `Text.JoinFitsExact`).
- **Long socket paths.** The IPC client copies the joined path into a socket address,
  which on Linux has room for 107 bytes and a NUL, without looking at its size. The copy
  stays inside exactly when the joined path is shorter than 108 bytes
  (`Text.CopyAddress`), which for a text with a slash is when the text itself is
  (`Text.SunPathExact`). A text can fit the mapping's fields and be too long here
  (`Text.FittingTextTooLong`).
- **Event names** are read with `strcmp` up to the first NUL, not to the end of the
  field. In a buffer, a record is matched by its own name exactly when its field holds
  a NUL or nothing, or a NUL, comes right behind it (`Records.OwnNamesExact`). A record
  without a name before one for watch descriptor b, 1 to 255, is matched by the one-byte
  name b, such as "1" for watch 49 (`Records.NamelessSeesWatch`).
- **A stale `pipeConnect`.** `proxy_connectIpc` does not clear the flag when it fails
  early or does not find the pipe. Afterwards the flag tells the truth exactly when
  it was clear before or the client was opened and the pipe found
  (`ProxySafety.ConnectIpcExact`). No path of the program gets there with the flag set:
  both callers know or check that it is clear (`ServiceSafety.ConnectsOnlyWhenClear`).
- **`serv_uninit` twice** is harmless exactly when the datagram handle is not set,
  because the handle keeps its value (`ServiceSafety.UninitAgainExact`). No path of the
  program calls it twice (`ServiceSafety.NothingAfterDone`). The event and proxy parts,
  which do run twice, clear their handles.

## Model

| member | source | states |
|---|---|---|
| TcpSafety.AtomicRunFacts | source/comm_tcp_server.c:363-475 | Over every run from initialisation, for any requested limit: `userNum` is the occupied slots plus the teardowns between slot clear and decrement; occupied <= `userNum` <= limit <= 32; occupied slots hold distinct allocated users; every allocated user is listed or in teardown; every descriptor handed out is closed once unless still held, every user freed once unless still listed or in teardown; every callback trace is legal. |
| TcpSafety.AtomicRunInv | source/comm_tcp_server.c:105-231 | No interleaving of accepts and split teardowns leaves the invariant when acceptance is one step. |
| TcpSafety.RunExact | source/comm_tcp_server.c:404-426 | With acceptance split in four, the invariant holds at every state of a run if and only if every step of it kept the order between the listen thread and the new receive thread. |
| TcpSafety.StepExact | source/comm_tcp_server.c:404-475 | One step from a good state leads to a good state if and only if it is orderly. |
| TcpSafety.RunInv | source/comm_tcp_server.c:363-475 | Orderly runs of the split machine end in good states. |
| TcpSafety.InitInv | source/comm_tcp_server.c:264-304 | The initialised server is good for any requested limit; 1 to 32 are kept, 0 and anything above 32 become 32, a negative limit stays negative. |
| TcpSafety.Pigeonhole | source/comm_tcp_server.c:377-434 | When the capacity gate passes, the slot scan finds a free slot, with teardowns in progress or not: "user memory was exhausted" is unreachable. |
| TcpSafety.TeardownFindsSlot | source/comm_tcp_server.c:453-456 | A receive thread in teardown always finds its slot. |
| TcpSafety.TeardownCountPositive | source/comm_tcp_server.c:457-461 | Outside uninit, the `> 0` guard of the decrement is always true. |
| TcpSafety.ExitsMatchEnds | source/comm_tcp_server.c:127-141 | The exit callback is made once for every end of stream a receive thread saw and for nothing else, over every orderly run. |
| TcpSafety.AtomicExitsMatchEnds | source/comm_tcp_server.c:127-141 | The same with acceptance as one step, over every run. |
| TcpSafety.AtomicRunIsRun | source/comm_tcp_server.c:404-426 | Every run with acceptance as one step is an orderly run of the split steps, to the same state and with the same ends of stream. |
| TcpSafety.StepSessions | source/comm_tcp_server.c:117-160 | Every connection's callbacks stay in accept, receives of 1..8191 bytes, at most one exit. |
| TcpSafety.StepDescriptors | source/comm_tcp_server.c:127-134 | The open descriptors are those of allocated users with a positive `fd` and the listen socket's, and no two users share one. |
| TcpSafety.StepUsers | source/comm_tcp_server.c:387-473 | The allocated users are those handed out and not freed; none is freed twice. |
| TcpUninit.DisorderPublishesFreedUser | source/comm_tcp_server.c:404-426 | From every good state with room for one more client there is a run, disorderly, that ends with a freed user in the table. |
| TcpUninit.UninitExact | source/comm_tcp_server.c:333-354 | Uninit empties the slots, leaves the counter at 0, makes no callback, clears `running` and, unless an accept is in flight, ends the listen thread; nothing dangles if and only if no teardown is before its free and no accept in flight, and then every descriptor is closed. |
| TcpUninit.QuietUninitEnds | source/comm_tcp_server.c:333-354 | All that can still happen to a server that was quiet when taken down is that a receive thread frees its own user. |
| TcpUninit.ListenFailEnds | source/comm_tcp_server.c:183-189 | A failed `listen` closes the socket and ends the listen thread. |
| TcpUninit.AcceptFailEnds | source/comm_tcp_server.c:209-230 | A failed `accept` clears `running` and ends the listen thread. |
| TcpUninit.StoppedForGood | source/comm_tcp_server.c:183-230 | Once the listen thread has ended, no run accepts anybody any more, and the counter does not grow. |
| TcpUninit.DisconnectOne | source/comm_tcp_server.c:442-475 | Disconnecting a listed user during the sweep frees it, closes its descriptor if open, and keeps the rest of the table, the descriptors and the heap consistent. |
| TcpUninit.LifeConserves | source/comm_tcp_server.c:243-354 | Over every run from initialisation to a quiet uninit, each descriptor is closed as often as it was handed out, and each user freed as often as allocated but for those whose own thread frees them next. |
| TcpUninit.EarlyUninitDangles | source/comm_tcp_server.c:333-354 | Uninit right after a receive thread closed its socket always leaves that thread dangling. |
| TcpUninit.BroadcastSkips | source/comm_tcp_server.c:553-557 | From every good state with a zero counter and room, the accept's own steps, in order, reach a point where a broadcast sends nothing although the new client's descriptor is listed and open. |
| TcpUninit.BroadcastSkipsFirst | source/comm_tcp_server.c:553-557 | Such a run from initialisation, with its numbers. |
| TcpUninit.SweepAll | source/comm_tcp_server.c:342-347 | The sweep removes exactly the listed users and cancels exactly the threads of those with an open descriptor; the counter, reset first, stays at 0. |
| TcpUninit.SendLoopInOrder | source/comm_tcp_server.c:573-591 | The broadcast loop writes to the open slots' descriptors one by one in slot order. |
| TcpUninit.SendLoopTargets | source/comm_tcp_server.c:573-591 | A broadcast writes once to exactly the open descriptors of listed users. |
| TcpUninit.EarlyReturnExact | source/comm_tcp_server.c:553-557 | The early return on a zero counter agrees with the full loop except, exactly, between publication and increment with an open listed descriptor. |
| TcpServer.TcpIpv4Server.constructor | source/comm_tcp_server.c:264-304 | The context as initialised. |
| TcpServer.TcpIpv4Server.ListenOnce | source/comm_tcp_server.c:183-189 | A failed `listen` closes the socket and ends the thread. |
| TcpServer.TcpIpv4Server.AcceptClient | source/comm_tcp_server.c:363-435 | The gate, slot scan, allocation, thread start, callback and publication do the atomic accept; a refusal leaves all but the descriptor to the caller. |
| TcpServer.TcpIpv4Server.AcceptOnce | source/comm_tcp_server.c:204-224 | One round of the listen loop: a failed `accept` ends it; a refused client's descriptor is closed. |
| TcpServer.TcpIpv4Server.ReceiveData | source/comm_tcp_server.c:151-159 | A received chunk is handed to the receive callback. |
| TcpServer.TcpIpv4Server.EndOfStream | source/comm_tcp_server.c:127-134 | The receive thread closes its socket and marks it closed. |
| TcpServer.TcpIpv4Server.ExitCallback | source/comm_tcp_server.c:136-139 | The exit callback follows. |
| TcpServer.TcpIpv4Server.ScanAndClear | source/comm_tcp_server.c:453-463 | The scan clears the first slot that holds the user and says whether there was one. |
| TcpServer.TcpIpv4Server.TeardownStep | source/comm_tcp_server.c:453-473 | Slot clear, guarded decrement and free, each as its own step. |
| TcpServer.TcpIpv4Server.DisconnectClient | source/comm_tcp_server.c:442-475 | The disconnect routine run to its end on one table entry. |
| TcpServer.TcpIpv4Server.Uninit | source/comm_tcp_server.c:333-354 | Counter reset, sweep of all slots up to the limit, listen socket closed. |
| TcpServer.TcpIpv4Server.Send | source/comm_tcp_server.c:484-533 | Which guard stops a send to one user, in the code's order; it counts as sent exactly when the user is there, its socket not closed, there is data and the operating system takes it. |
| TcpServer.TcpIpv4Server.SendAllClient | source/comm_tcp_server.c:541-592 | The descriptors a broadcast writes to, in order. |
| TcpServer.ServerInit | source/comm_tcp_server.c:243-327 | A handle exactly when allocation, socket, bind and thread succeed; otherwise the socket, if there was one, has been closed. |
| IpcStream.IpcStreamClient.Connect | source/comm_ipc_stream.c:225-291 | Success exactly when the socket is ready, `connect` and the thread start succeed; a failed thread start leaves `running` clear and the socket open. |
| IpcStream.IpcStreamClient.Send | source/comm_ipc_stream.c:300-350 | Which guard stops a send, in the code's order; it counts as sent exactly when the socket is ready, there is data and the operating system takes it. |
| IpcStream.IpcStreamClient.EndOfStream | source/comm_ipc_stream.c:107-135 | End of stream closes the descriptor once and clears `running`. |
| IpcStream.IpcStreamClient.Uninit | source/comm_ipc_stream.c:200-217 | A running receiver is cancelled, an open descriptor closed once, the socket file removed and the context freed. |
| IpcStream.ClientInit | source/comm_ipc_stream.c:148-194 | A handle exactly when allocation, socket and bind succeed; a socket that cannot be bound is closed. |
| ProxySafety.LinkRunExact | application/nptp_proxy.c:8-92 | Over every run of one mapping with the TCP side split, the mapping's invariant (stored user, `pipeConnect`, both streams, whose chunk is whose) holds throughout if and only if the TCP side stays orderly. |
| ProxySafety.AtomicLinkStepInv | application/nptp_proxy.c:8-154 | With acceptance as one step, every step of a mapping keeps its invariant. |
| ProxySafety.StoredUserSafe | application/nptp_proxy.c:8-24 | A stored `pTcpUser` is allocated and in slot 0; `tcpConnect` is set exactly when one is stored. |
| ProxySafety.CallbackMeetsOwnUser | application/nptp_proxy.c:17-24 | The exit callback's NULL write always meets its own user, never a newer one; the accept callback never overwrites one. |
| ProxySafety.OnlyOne | source/comm_tcp_server.c:377-381 | With a limit of one, two users that have not reached their final free are the same user. |
| ProxySafety.StepPipe | application/nptp_proxy.c:70-76 | `pipeConnect` is set exactly when the client has a running receiver on an open descriptor; that is the only client socket open; each is closed once. |
| ProxySafety.ConnectIpcExact | application/nptp_proxy.c:94-154 | After `proxy_connectIpc` the flag tells the truth if and only if it was clear before or the client was opened and the pipe found; the old socket is closed in every case. |
| ProxySafety.StepForward | application/nptp_proxy.c:26-37 | What is sent on in each direction is the whole chunks whose send succeeded, in order; no chunk is dropped for its size. |
| ProxySafety.SendsDeliver | application/nptp_proxy.c:78-92 | What each user's socket got is the in-order concatenation of the chunks sent to that user, and all sockets together got that of the chunks sent to any. |
| ProxySafety.StepRouted | application/nptp_proxy.c:78-92 | Every pipe chunk goes to the user whose connection, by the callbacks made so far, was the one open when it came, and to nobody when none was. |
| ProxySafety.CeaseClean | application/nptp_proxy.c:62-68 | Ceasing a quiet server closes every descriptor of it and ends its listen thread; nothing of it can happen any more but that a receive thread frees its own user. |
| ProxySafety.DownClean | application/nptp_proxy.c:156-161 | Disconnecting and ceasing a quiet mapping leaves no descriptor open and nothing that can call back: only receive threads' final frees. |
| ProxySafety.LaunchInv | application/nptp_proxy.c:39-60 | A launched mapping is good and holds at most the new socket. |
| Mapping.TMapping.TcpIpv4AcptFunc | application/nptp_proxy.c:8-15 | The accept callback stores the user. |
| Mapping.TMapping.TcpIpv4ExitFunc | application/nptp_proxy.c:17-24 | The exit callback clears the stored user, whichever it is. |
| Mapping.TMapping.TcpIpv4RecvFunc | application/nptp_proxy.c:26-37 | A TCP chunk goes to the IPC client's socket, as far as its guards let it. |
| Mapping.TMapping.IpcStreamExitFunc | application/nptp_proxy.c:70-76 | The pipe's exit callback clears `pipeConnect`. |
| Mapping.TMapping.IpcStreamRecvFunc | application/nptp_proxy.c:78-92 | A pipe chunk goes to the stored user's socket, if one is stored. |
| Mapping.TMapping.LaunchTcp | application/nptp_proxy.c:39-60 | Starts a one-user server, or leaves the handle clear and fails. |
| Mapping.TMapping.CeaseTcp | application/nptp_proxy.c:62-68 | Takes the server down and clears handle, flag and stored user. |
| Mapping.TMapping.ConnectIpc | application/nptp_proxy.c:94-154 | Replaces the client; succeeds exactly when a new one was opened, connected or not. |
| Mapping.TMapping.DisconnectIpc | application/nptp_proxy.c:156-161 | Takes the client down and clears handle and flag. |
| Mapping.TMapping.TakeDown | application/nptp_proxy.c:183-190 | One round of `proxy_uninit`, in the code's order. |
| Mapping.TMapping.Listen | source/comm_tcp_server.c:183-189 | The listen thread's start is one step of the mapping. |
| Mapping.TMapping.Accept | application/nptp_proxy.c:8-15 | A round of the listen loop together with the callback it makes is one step of the mapping. |
| Mapping.TMapping.TcpEnd | source/comm_tcp_server.c:127-134 | A receive thread's close is one step of the mapping and makes no callback yet. |
| Mapping.TMapping.TcpTeardown | source/comm_tcp_server.c:453-473 | Each remaining step of a receive thread's end is one step of the mapping and makes no callback. |
| Mapping.TMapping.TcpExit | application/nptp_proxy.c:17-24 | The receive thread's exit callback is one step of the mapping. |
| Mapping.TMapping.TcpData | application/nptp_proxy.c:26-37 | A received TCP chunk and its forwarding are one step of the mapping. |
| Mapping.TMapping.PipeChunk | application/nptp_proxy.c:78-92 | A received pipe chunk and its forwarding are one step of the mapping. |
| Mapping.TMapping.PipeClosed | source/comm_ipc_stream.c:107-135 | The client's end of stream with its exit callback is one step of the mapping. |
| Text.TrimExact | application/nptp_xml.c:23-47 | Trimmed text is exactly what is left between the leading LF, CR and spaces and the first LF or CR after them. |
| Text.TrimIdempotent | application/nptp_xml.c:23-47 | Trimming twice is trimming once. |
| Text.RemoveSpace | application/nptp_xml.c:23-47 | The in-place routine terminates, keeps the string terminated and leaves the trimmed text at the position it returns. |
| Text.SplitJoin | application/nptp_xml.c:49-78 | A text with a slash comes back when its path and name are joined, and the name has no slash. |
| Text.JoinSplit | application/nptp_proxy.c:128-133 | A path and a slash-free name come back when their join is split. |
| Text.JoinFits | application/nptp_proxy.c:128-133 | For every text that fits the fields, with a slash or not and with `getcwd` failing or not, path and name are shorter than their fields and the joined path with its NUL fits 256 bytes. |
| Text.JoinFitsExact | application/nptp_serv.h:26-27 | A joined text fits the mapping's fields if and only if its name is shorter than 80 bytes and the whole at most 160. |
| Text.LongNameDoesNotFit | application/nptp_xml.c:49-78 | A text that does not fit. |
| Text.SunPathExact | source/comm_ipc_stream.c:249-255 | For a text with a slash, the joined path fits the socket address if and only if the text is shorter than 108 bytes. |
| Text.FittingTextTooLong | source/comm_ipc_stream.c:249-255 | A text that fits the mapping's fields and not the socket address. |
| Text.CopyAddress | source/comm_ipc_stream.c:249-255 | The copy of the joined path stays inside the address if and only if the path is shorter than 108 bytes; then the address holds it, terminated. |
| Text.DecomposePathName | application/nptp_xml.c:49-78 | For every text: the copying loops stay inside the two fields and leave both terminated if and only if the text fits; as long as they stay inside, the fields read as the split's path and name. |
| Text.DecimalInjective | application/nptp_proxy.c:106-111 | Different indices print differently. |
| Text.DecimalValue | application/nptp_proxy.c:106-111 | A printed index reads back as the index. |
| Text.ClientPathReads | application/nptp_proxy.c:106-111 | A client socket's file is the common base followed by the mapping's index in digits. |
| Text.DecimalDigits | application/nptp_proxy.c:106-111 | It is printed in decimal digits without a leading zero. |
| ServiceSafety.ClientFilesApart | application/nptp_proxy.c:106-111 | In every good state, mappings in different places bind different client socket files. |
| Records.DecodeExact | application/nptp_event.c:38-54 | Reading records off a buffer undoes packing them, and nothing else decodes. |
| Records.LowFirst | application/nptp_event.c:54 | A record's length is read with its lowest byte first. |
| Records.OwnNameExact | application/nptp_event.c:47 | A record's name is read the same whatever follows it if and only if its field holds a NUL. |
| Records.OwnNamesExact | application/nptp_event.c:38-54 | In a buffer, a record is matched by its own name if and only if its field holds a NUL, or nothing or a NUL comes right behind it. |
| Records.NamelessSeesWatch | application/nptp_event.c:38-54 | A well-formed buffer whose first record has no name is matched by the low byte of the next record's watch descriptor. |
| Records.OwnNames | application/nptp_event.c:38-54 | With NUL-terminated fields, the names the monitor compares are the records' own. |
| Service.EntriesTakeFirst | application/nptp_xml.c:187-219 | The table is filled with the first 64 enabled elements, in document order. |
| Service.FirstWaiting | application/nptp_event.c:42-52 | The scan ends at the first mapping that is not connected and has the record's name, or at 64 when there is none. |
| ServiceSafety.BootTableIs | application/nptp_serv.c:110-114 | After configuration the places below the count hold mappings whose index is their place, those above hold none: loops to the count and loops to 64 see the same mappings. |
| ServiceSafety.WatchAllSets | application/nptp_event.c:71-88 | Every granted watch is recorded with its own mapping; a refused one leaves the mapping as it was. |
| ServiceSafety.UnwatchAllClears | application/nptp_event.c:97-104 | Every watch is withdrawn. |
| ServiceSafety.ServiceRunGood | application/nptp_serv.c:103-184 | Over every run, with start-up failing anywhere or not and any interleaving of mappings, monitor, "exit" and the rounds of shut-down or of a failed stage's take-down: the invariant holds throughout; afterwards everything has been given back, no mapping while a server, client or control socket could call back with it, and every mapping was freed clean. |
| ServiceSafety.OfferedRunExact | source/comm_tcp_server.c:333-354 | If servers may be ceased at any time, a run stays good throughout if and only if each was quiet when it was ceased. |
| Progress.EveryServiceCanFinish | application/nptp_serv.c:226-238 | From every good state before the end some run leads to the end: start-up can fail, "exit" leaves the monitor, and a server that is waited for is quiet after at most three steps of its own. |
| Progress.DrainServer | source/comm_tcp_server.c:453-473 | With a limit of one user, each step of the thread in teardown leaves fewer of them, and the server is quiet after the last. |
| ServiceSafety.DisconnectAtInv | application/nptp_proxy.c:156-161 | Disconnecting one client keeps the whole service consistent whatever the servers, its own included, are doing. |
| ServiceSafety.CeaseAtInv | application/nptp_proxy.c:62-68 | Ceasing one server needs quiet of that server only; all other mappings may be at work. |
| ServiceSafety.OnLinkAlive | application/nptp_proxy.c:183-190 | While the mappings are taken down, those already down take no step, and a step of one that is still up leaves them down. |
| ServiceSafety.NoLinkWhileFreeing | application/nptp_serv.c:171-178 | While mappings are being freed, nothing of any mapping runs. |
| ServiceSafety.ConnectsOnlyWhenClear | application/nptp_proxy.c:171-172 | Start-up and the monitor call `proxy_connectIpc` only with `pipeConnect` clear, and nothing else calls it. |
| ServiceSafety.NothingAfterDone | application/nptp_serv.c:226-238 | After `serv_uninit` the service takes no further step. |
| ServiceSafety.EachGivenBackOnce | application/nptp_serv.c:160-184 | Over every finished run, interrupted in any way during shut-down or not, each mapping, TCP handle, IPC handle, datagram handle and inotify descriptor was given back as often as it was acquired. |
| Effects.FreedLast | application/nptp_serv.c:160-184 | Over every run, when a mapping is freed, its server, its client and the control socket have been given back as often as acquired. |
| ServiceSafety.MappingFacts | application/nptp_proxy.c:8-92 | In every state reachable from start-up, for each mapping until it is freed: stored user safe, `pipeConnect` true to the client, both streams in-order concatenations of whole delivered chunks, and each user's socket given only chunks that came while it was the one connected. |
| Effects.SendAnswers | source/comm_tcp_server.c:493-532 | What each answer of a send stands for. |
| Effects.TcpChunkForwarded | application/nptp_proxy.c:26-37 | A TCP chunk reaches the pipe, whole, exactly when there is a client with a socket and the operating system takes it; it is recorded so. |
| Effects.PipeChunkForwarded | application/nptp_proxy.c:78-92 | A pipe chunk reaches the stored user, whole, exactly when one is stored whose socket is not closed and the operating system takes it; it is recorded so. |
| Effects.ConnectIpcConnects | application/nptp_proxy.c:94-154 | With the flag clear, a connect connects and sets the flag exactly when every call succeeds and the pipe exists; the client is there exactly when it could be opened. |
| Effects.PipeEnds | source/comm_ipc_stream.c:107-135 | After the pipe's end the flag is clear, the socket closed, and the mapping can be connected again. |
| Effects.LaunchServes | application/nptp_proxy.c:39-60 | A launch gives a server on its socket, for one user and ready to listen, exactly when every call succeeds. |
| Effects.ListeningServerAdmits | source/comm_tcp_server.c:363-435 | A listening server with room, memory and a thread admits the client: told, listed, counted and served. |
| Progress.ClientLeaves | source/comm_tcp_server.c:127-166 | A client's end of stream and the four steps after it can all be taken, and leave the user freed, its slot empty and the counter at 0. |
| Effects.DispatchConnects | application/nptp_event.c:42-52 | A record connects the first mapping that is not connected and has its name, when every call succeeds and the pipe exists. |
| Effects.DispatchLeaves | application/nptp_event.c:42-52 | It leaves alone every mapping that is connected, has another name, or comes after one that waits. |
| Effects.DispatchAllAppends | application/nptp_event.c:38-55 | A buffer's records are handled each once, from the first to the last. |
| Effects.EventInitWatches | application/nptp_event.c:59-91 | Every granted watch is recorded with its own mapping, and the descriptor kept. |
| Effects.EventUninitClears | application/nptp_event.c:93-110 | Every watch is withdrawn and the descriptor closed. |
| Effects.EntryFields | application/nptp_xml.c:117-185 | Where an element's texts end up: the part before the last slash is the path, the part behind it the name, or the current directory and the text's first 79 bytes; a port of 0 to 65535 is kept; the description's first 79 bytes are. |
| Effects.SplitPlain | application/nptp_xml.c:49-78 | A text without a slash names a pipe in the current directory. |
| Effects.EntriesExact | application/nptp_xml.c:187-219 | The k-th entry is the k-th enabled element, up to 64. |
| Effects.BootFills | application/nptp_xml.c:187-219 | The k-th place of the table holds the k-th enabled element, up to 64, and is not watched yet. |
| Effects.AllFitExact | application/nptp_xml.c:187-219 | The configuration stays within its fields exactly when every element that gets a place does. |
| Effects.ProxyInitSucceeds | application/nptp_proxy.c:163-177 | `proxy_init` succeeds exactly when every mapping can be launched and its client opened. |
| Effects.ProxyInitServes | application/nptp_proxy.c:163-177 | And then every mapping is launched and opened, and connected exactly when its pipe was there and took the connect. |
| Effects.ServInitServes | application/nptp_serv.c:103-158 | `serv_init` succeeds exactly when there is a mapping, all can be launched and opened, and monitor and control socket can be opened; then all of them are. |
| Effects.FreeAllFrees | application/nptp_serv.c:171-178 | Every mapping in the table is freed and listed as freed, so what is proved of the freed ones is proved of all. |
| Conversation.Exchange | application/nptp_proxy.c:8-92 | With a listening server that has nobody and a connected client, a client is accepted, its chunk reaches the pipe and the pipe's reply reaches it. |
| Conversation.StartsConnected | application/nptp_serv.c:103-158 | For any enabled element there is a start-up that ends with the monitor running and its mapping launched and connected. |
| Conversation.TalksFromTheStart | application/nptp_serv.c:192-239 | For any enabled element and any two chunks there is a run from the very start in which a client's chunk reaches the pipe and the reply reaches the client. |
| ServiceSafety.NothingCrosses | application/nptp_proxy.c:26-92 | A step of one mapping changes no other, and both descriptors it sends on belong to no other. |
| TakeDown.UninitIsRun | application/nptp_serv.c:160-184 | `serv_uninit` as coded, when nothing interrupts it, is a run of the shut-down's stages. |
| TakeDown.DownRuns | application/nptp_proxy.c:179-191 | `proxy_uninit` as coded is the run of its rounds, inside start-up as inside shut-down. |
| TakeDown.UninitFinishes | application/nptp_serv.c:160-184 | `serv_uninit` from any consistent state that stays quiet gives everything back exactly once. |
| ServiceSafety.UninitAgainExact | application/nptp_serv.c:160-184 | A second `serv_uninit` after a finished one is harmless if and only if the datagram handle is not set. |
| ServiceSafety.DispatchAllIsRun | application/nptp_event.c:38-55 | Handling a whole buffer is a run of the service, one step per record, so the results over every run cover it, interrupted between records or not. |
| StartUp.InitThenUninit | application/nptp_serv.c:226-236 | Wherever `serv_init` fails, or if it does not, the `serv_uninit` after it gives back everything exactly once, although the monitor and the proxy may already have been taken down. |
| StartUp.InitIsRun | application/nptp_serv.c:103-158 | `serv_init` as coded, with any failure, is a run of the service's stages, so the results over every run hold of it and of all that follows. |
| NptpServer.NptpService.constructor | application/nptp_serv.c:12-15 | The globals before start-up. |
| NptpServer.NptpService.ParseTagMapping | application/nptp_xml.c:187-219 | Stays inside all fields if and only if every element that is given a place fits; then the table holds the entries, in order, indices equal to places, every other place empty. |
| NptpServer.ParseEntry | application/nptp_xml.c:117-185 | Stays inside the fields if and only if the pipe text fits; then the port cut to 16 bits, the trimmed pipe split in two, the trimmed description cut to its field; zero or empty where a child is missing. |
| NptpServer.NptpService.BootTable | application/nptp_serv.c:110-120 | Clearing the table and reading the configuration, as far as it stays inside the fields. |
| NptpServer.NptpService.ProxyInit | application/nptp_proxy.c:163-177 | Launch and connect in order, stopping at the first failure. |
| NptpServer.NptpService.ProxyUninit | application/nptp_proxy.c:179-191 | Every mapping below the count is taken down. |
| NptpServer.NptpService.EventInit | application/nptp_event.c:59-91 | The inotify descriptor and the mappings' watches. |
| NptpServer.NptpService.EventUninit | application/nptp_event.c:93-110 | Watches withdrawn, the inotify descriptor closed if open. |
| NptpServer.NptpService.ServInit | application/nptp_serv.c:103-158 | For every configuration, whether it stays inside the fields; if so, the staged start-up and what each failure takes down again. |
| NptpServer.NptpService.ServUninit | application/nptp_serv.c:160-184 | Control socket, monitor, proxy, then all 64 places freed; the datagram handle keeps its value. |
| NptpServer.NptpService.StartOrClean | application/nptp_serv.c:226-231 | A start-up that fails anywhere ends, after `serv_uninit`, with everything given back exactly once. |
| NptpServer.NptpService.IpcRecvFunc | application/nptp_serv.c:18-77 | "exit" takes the monitor down; no other command touches the mappings. |
| NptpServer.NptpService.HandleRecord | application/nptp_event.c:42-52 | One record tries to connect the first not-connected mapping of that name and no other. |
| NptpServer.NptpService.HandleBuffer | application/nptp_event.c:38-55 | The cursor loop over packed records visits each once, in order, ends, and does what folding the records one by one does. |

## Left out

- The IPC stream server half: its receive loop closes only on a negative length (source/comm_ipc_stream.c:466), so the teardown results here do not carry over.
- The IPv6 TCP server: the same machine as IPv4; the model has one of them.
- TCP client, UDP, raw, FIFO, netlink, UART and IPC datagram internals: one context and one thread each. The datagram socket is a handle that may fail to open and whose thread may deliver "exit".
- Logging, hex dump, the status listing, the control program's menu and the test programs: output or finite tables.
- XML parsing: libxml's. The model takes the list of elements with their `enable` number and the text of the children they have; a missing attribute, which makes `atoi` read NULL, is not modelled, nor is `malloc` failing in `parseTagMapping`, which the code does not check.
- TcpServer.TcpIpv4Server.AcceptClient: is one atomic step here; the split into four is in `TcpTable.Step`. The counter's read-modify-write is one step in both.
- TcpServer.TcpIpv4Server.SendAllClient: assumes that listed users are allocated, which the invariant gives; what the operating system answers to each send is not recorded because the code ignores it.
- TcpServer.TcpIpv4Server.constructor: the three callbacks are always registered, as the proxy does.
- IpcStream.IpcStreamClient.Connect: the attribute object that a failed thread start does not destroy is not modelled; the address it copies is in `Text.CopyAddress`, and the machine takes every path as if it fitted.
- Mapping.TMapping.ConnectIpc: is one step, so a peer that closes between the thread start and the flag's assignment is not modelled.
- Text.DecomposePathName: where the code would write past a field, the model stops; a failing `getcwd` is taken to leave the buffer as it was.
- NptpServer.NptpService.HandleBuffer: one buffer of whole records; the endless loop around it, a failing `read` and a name read past the end of the buffer are not modelled.
- NptpServer.NptpService.EventInit: mappings in one directory may share a watch, so the kernel's watch counts are not modelled.
- ServiceSafety.ServiceRunGood: cancellation takes effect in `accept` and `recv` only, and a server is taken down when none of its own receive threads is in the middle of its teardown.
- The command-line options and the fork of the main routine.
