# sixtysocks, modelled and proved in Dafny

sixtysocks is an event-driven SOCKS 6 proxifier and proxy. This project models its state machines
and proves what they guarantee over every run. `dafny verify dfyconfig.toml` checks all of it.

| file | component |
|---|---|
| `Wrappers.dfy` | `Option` |
| `Codec.dfy` | a concrete self-delimiting stand-in for the SOCKS 6 message library |
| `Buffers.dfy` | `StreamBuffer`: a fixed array with a sliding window |
| `Logs.dfy` | logs of what a reactor asks of the poller and does to its descriptors, and the discipline they may keep |
| `Relays.dfy` | `StreamReactor`: one direction of a tunnel |
| `ProxifierReactors.dfy` | `ProxifierUpstreamer` with the client half of TLS, `ProxifierDownstreamer` |
| `ProxyReactors.dfy` | `ProxyUpstreamer`, `AuthServer` and the proxy's downstreamers |
| `ProxyWorlds.dfy` | the proxy between an arbitrary client and an arbitrary remote |
| `Tunnels.dfy` | application, proxifier, proxy and remote together |
| `Wakeups.dfy` | no lost wakeup in any of a tunnel's four relays |
| `Progress.dfy` | the way to the relay: phase and standing of every reactor, from what its calls reported |
| `Answers.dfy` | what the proxy answers to which request |
| `Calls.dfy` | whole `process` calls are runs of the composed machines |
| `Truncation.dfy` | exactly which requests a tunnel carries |
| `Dispatcher.dfy` | `Poller` and the event loop over a model of epoll and of descriptors |
| `Discipline.dfy` | every reactor's log keeps the discipline; any number of them in one loop are safe |
| `Fates.dfy` | how a relay ends, and that it does not end otherwise |
| `Closings.dfy` | the end of a stream in a tunnel, and what it means for the connection onward |
| `RelayLoops.dfy` | a relay among all other reactors in the event loop |
| `Timers.dfy` | `TimeoutReactor` and `Timer` |
| `ServerAuth.dfy` | `AuthUtil::authenticate`, the session table and token banks |
| `AuthGate.dfy` | many connections over one session table: authentication and what reaches a remote |
| `ClientSessions.dfy` | the supplication lock, session install and kill, the joint run with the proxy |

## How it is built

Each component has two forms. A *class* has the source's fields and updates them in place: an array
buffer, reactors with a state field, the poller's table, the timer queues, the session table. A *pure
machine* says what one system call does, with the code that runs up to the next one. Every class
method is proved to compute the machine's function of the old state, and to hand to the network
exactly the bytes it says. The main theorems quantify over all sequences of events of the machines:
every interleaving of the parties, every fragmentation of reads and writes, every error return.
`Calls.dfy` closes the loop: a whole call of a class method, from any reachable state, is such a run.

The reactors and the event loop meet in *logs*. Each reactor, as a class and as a machine, keeps a log
of its `poller->add`, `poller->remove`, `reset` and `deactivate` calls in the order of the code. In the
event loop these are separate events and nothing restrains them: a reactor may ask twice, or close what
is registered, and `AskingTwiceArmsTwice` and `CloseWhileRegisteredDisagrees` show what would follow.
The loop's theorems assume that every log keeps a discipline (ask for one event at a time, remove
before closing). `Discipline.dfy` proves that of every reactor in every run of a tunnel and of a proxied
connection, that every whole call asks for at most one event, and then that a loop shared by any number
of them is safe.

Most of these theorems say what can never happen. Their counterparts say what must: `Fates.dfy`,
`Closings.dfy`, `Progress.dfy` and `Answers.dfy` keep, beside each machine, a record of what its calls
reported and show that over every run the machine's state is the one that record calls for, in both
directions: a reactor is dead exactly if a call of its own failed, a relay's ends are open exactly until
the stream is over, a request is answered exactly as its bytes and the remote connection demand.
`AuthenticateDecides`, `RejectionClears`, `AdmittedIff` and `FiresExactlyWhenDue` do the same for the
session table, the proxifier's sessions and the timers.

What is outside the program comes in as parameters: what the kernel or NSS answers to a call, random
numbers, the clock, the order in which a hash map is traversed. The kernel never takes or gives more
than it was offered; a `recv` offered no room answers zero, which the code reads as end of file. That
is kept in the model and proved never to happen (`RoomForEveryMessage`).

Points where the code decides what can be claimed:

- `prepend` takes its size as a `uint8_t` while its caller passes the length of the whole packed
  request. The tunnel theorems therefore need a packed request of at most 255 bytes.
  `TransparentIffShort` shows this is exact: for every longer request that fits the proxifier's packing
  buffer some run delivers a different request.
- `RescheduleException` is a `std::exception`, so the catch-all of `honorRequest` answers FAILURE when
  the TFO payload of a CONNECT has not arrived yet. The model does the same.
- When TFO takes the whole request, `start` arms the source, so the downstreamer is created only at
  the application's next bytes. Nothing is claimed about promptness.
- `sendReply` does not return after a zero-byte send. The gating theorem holds nevertheless.
- A relay's branch for "end of file with bytes still buffered" exists in the model and is never
  reached, because a relay only receives with an empty buffer.
- The timer queues agree with a full scan because the clock does not go back; the system clock can.
  `ClockSetBackMisses` gives a history where it does and a timer is missed. The exact condition is that
  every queue is in the order in which its timers were armed (`TickIsScanAlways`), and an addition or a
  refresh keeps that exactly if the clock is not behind the last timer of the queue (`AddKeepsSorted`,
  `RefreshKeepsSorted`).
- A timer is triggered before it is popped, under the lock of its queue. The trigger deactivates a
  reactor; if only the poller's table referred to that reactor, it is destroyed with its timer, and the
  timer's destructor calls `cancel`, which waits for the same non-recursive lock. `Process` takes the
  set of timers in that position as a parameter and comes back exactly if it fires none of them. (The
  program's own use of the timers is commented out, proxy/proxy.hh:29 and proxy/proxyupstreamer.cc:97.)
- An end of file during `SSL_ForceHandshake` is not an error to `clientHandshake`: the code goes on to
  send the request. The model does the same; NSS sends nothing any more on such a connection, so early
  data the server took without the client learning of it is never delivered twice (`EarlyDataOnce`).
- A request or reply that cannot be parsed for another reason than a wrong version or missing bytes
  raises an exception that nobody but `runAs` catches, so the reactor is deactivated (`Malformed`).
- The comment at core/streambuffer.hh:11 says 100 KB; the constant is 35 KiB, and the model uses that.
- `Poller::remove` does not check bounds; descriptors are taken to be below the table's size.

A run of the tunnel has a flag `broken`, set when a reactor gave up for a reason other than the end of
its source (a failed call, a refused connection, a peer that stopped reading). `GracefulClose` is
about runs without it; all other theorems hold with it too.

## Model

| member | source | states |
|---|---|---|
| `Codec.ParseDecides` | proxy/proxyupstreamer.cc:111-130 | each of the four outcomes from the bytes alone: wait exactly for the proper prefixes of messages, accept exactly what begins with one, refuse a wrong version and, as soon as it is there, an unknown address kind |
| `Codec.ParseIff` | proxy/proxyupstreamer.cc:111-127 | the parser accepts exactly the byte strings that begin with a packed message, and consumes just that message |
| `Codec.ParseShort` | proxy/proxyupstreamer.cc:123-127 | any proper prefix of a packed message is EndOfBuffer, never another message or an error |
| `Codec.ParseStable` | proxifier/proxifierdownstreamer.cc:75-87 | once the parser has decided, more bytes never change its mind |
| `Codec.ParseOfStream` | proxifier/proxifierdownstreamer.cc:31-59 | on any prefix of a stream that starts with `m` the parser yields `m` or waits |
| `Buffers.PrependExact` | core/streambuffer.hh:68-73 | prepending is exact if and only if the length survives the narrowing to eight bits |
| `Buffers.HeadroomExact` | core/streambuffer.hh:54-73 | room in front is refused exactly when no position of the window would leave it, and the window moves only as far as it must |
| `Buffers.RefinesSequence` | core/streambuffer.hh:19-73 | over any history of fill, unuse, makeHeadroom and prepend within bounds the window equals what the operations make of a plain byte sequence, and stays inside the array |
| `Buffers.HistoryIsFifo` | core/streambuffer.hh:29-66 | drained bytes followed by buffered bytes are the initial bytes followed by the appended ones, through resets and moves |
| `Buffers.StreamBuffer.Fill` | core/streambuffer.hh:39-52 | a receive into the tail and `use` append to the window |
| `Buffers.StreamBuffer.Unuse` | core/streambuffer.hh:29-37 | drops a prefix; an emptied window restarts at zero |
| `Buffers.StreamBuffer.MakeHeadroom` | core/streambuffer.hh:54-66 | refuses exactly when the data and the room do not fit; the overlapping move keeps the contents |
| `Buffers.StreamBuffer.Prepend` | core/streambuffer.hh:68-73 | places the first `size mod 256` bytes in front of unchanged contents, or refuses |
| `Relays.IoExact` | core/socket.hh:21-49 | what `sockRecv` and `sockSend` do, from the kernel's answer alone: which bytes move, what is returned and what is thrown |
| `Relays.RelayConserves` | core/streamreactor.cc:8-57 | over every run, with deactivation and destruction at any time, delivered ++ buffered = initial ++ received, and when the destination was closed because the source ended, everything received was delivered |
| `Fates.RelayFate` | core/streamreactor.cc:8-94 | over every run the state of a relay follows from what its calls reported: dead exactly if one failed or somebody deactivated it, both ends removed and closed exactly once a receive brought or a send took nothing or it was destroyed, and otherwise running or waiting for the event its last call or its buffer asks for |
| `Relays.NoLostWakeup` | core/streamreactor.cc:12-55 | over every plain TCP run, a live relay outside `process` with both ends open waits for input on its source iff its buffer is empty, and for output on its destination iff it is not |
| `Relays.ZeroIsNeverAmbiguous` | core/socket.hh:21-49 | every relay `recv` is offered the whole buffer and every relay `send` at least one byte |
| `Relays.NextKeeps` | core/streamreactor.cc:14-55 | every system call keeps the relay's invariant, including reschedules in the middle of `process` |
| `Relays.StreamReactor.Receive` | core/socket.hh:21-34 | `sockRecv`: at most the free room is filled; what is returned or thrown |
| `Relays.StreamReactor.Transmit` | core/socket.hh:36-49 | `sockSend`: the bytes sent are the front of the buffer and leave it; what is returned or thrown |
| `Relays.StreamReactor.Begin` | core/streamreactor.cc:67-84 | `start`: sends if there is something to send, else receives |
| `Relays.StreamReactor.RecvHalf` | core/streamreactor.cc:14-31 | the receiving case, with end of file and both exceptions |
| `Relays.StreamReactor.SendHalf` | core/streamreactor.cc:32-55 | the sending case as the machine's step, whose outcome `RelayFate` decides: both ends closed after a send that takes nothing, dead after a failure |
| `Relays.StreamReactor.Step` | core/streamreactor.cc:8-57 | a whole `process` call: the new state and the bytes written |
| `ProxifierReactors.RequestPrependedExactly` | proxifier/proxifierupstreamer.cc:74-77 | the request goes in front of the initial payload intact iff it has at most 255 bytes; for any size that fits the packing buffer the headroom suffices, so prepending never throws nor moves data |
| `ProxifierReactors.FirstBytesExact` | core/socket.hh:99-114 | the bytes TFO takes are the first ones, as many as the kernel took of those allowed; early data leaves the buffer only when accepted, and then exactly what was written |
| `ProxifierReactors.ProxifierUpstreamer.constructor` | proxifier/proxifierupstreamer.cc:14-32 | headroom of 17 KiB is reserved before anything is read |
| `ProxifierReactors.ProxifierUpstreamer.Start` | proxifier/proxifierupstreamer.cc:34-83 | opportunistic read, prepend, connect with TFO or deferred with TLS; the state reached and the bytes TFO took |
| `ProxifierReactors.ProxifierUpstreamer.SockConnect` | core/socket.hh:99-114 | TFO takes at most the allowed payload off the buffer; with TLS nothing leaves it yet |
| `ProxifierReactors.ProxifierUpstreamer.ClientHandshake` | tls/tls.cc:121-159 | early bytes stay buffered until the handshake ends, by completion or end of file, and leave iff they were accepted |
| `ProxifierReactors.ProxifierUpstreamer.SendRequest` | proxifier/proxifierupstreamer.cc:109-128 | the first send, skipped when TFO or early data took everything |
| `ProxifierReactors.ProxifierUpstreamer.Process` | proxifier/proxifierupstreamer.cc:85-134 | a whole call falling through its states: new state and bytes written |
| `ProxifierReactors.ProxifierDownstreamer.constructor` | proxifier/proxifierdownstreamer.cc:9-14 | starts with an empty buffer, waiting for the authentication reply |
| `ProxifierReactors.ProxifierDownstreamer.AwaitReplies` | proxifier/proxifierdownstreamer.cc:22-87 | the read of a waiting state; end of file deactivates in the first and returns in the second |
| `ProxifierReactors.ProxifierDownstreamer.TakeAuthReply` | proxifier/proxifierdownstreamer.cc:31-65 | waits, gives up, or takes exactly the reply off and goes on to the next |
| `ProxifierReactors.ProxifierDownstreamer.TakeOpReply` | proxifier/proxifierdownstreamer.cc:75-96 | waits, stops, or takes exactly the reply off and begins to relay what follows it |
| `ProxifierReactors.ProxifierDownstreamer.Process` | proxifier/proxifierdownstreamer.cc:16-102 | a whole call: new state and bytes written to the application |
| `ProxyReactors.AuthServer.constructor` | proxy/authserver.cc:13-21 | the buffer holds exactly the packed reply |
| `ProxyReactors.ProxyUpstreamer.constructor` | proxy/proxyupstreamer.cc:84-93 | reads from the client, no remote, nobody authenticated |
| `ProxyReactors.ProxyUpstreamer.Load` | proxy/connectproxydownstreamer.cc:7-14 | a downstreamer starts by sending what it was loaded with, ahead of remote data |
| `ProxyReactors.ProxyUpstreamer.Answer` | proxy/simpleproxydownstreamer.cc:7-13 | a one-shot operation reply is handed over and counted |
| `ProxyReactors.ProxyUpstreamer.RejectVersion` | proxy/simpleproxydownstreamer.cc:15-24 | for a wrong version only the own version number is sent |
| `ProxyReactors.ProxyUpstreamer.ReadRequest` | proxy/proxyupstreamer.cc:105-131 | the read in S_READING_REQ, with end of file, reschedule and failure |
| `ProxyReactors.ProxyUpstreamer.ParseRequest` | proxy/proxyupstreamer.cc:111-130 | waits, rejects the version, or takes exactly the request off the buffer and authenticates |
| `ProxyReactors.ProxyUpstreamer.SendAuthReply` | proxy/authserver.cc:23-43 | drains the reply, goes on after a zero-byte send, and honours or kills only when all is sent |
| `ProxyReactors.ProxyUpstreamer.Deactivate` | proxy/authserver.cc:57-61 | the AuthServer takes the upstreamer down with it |
| `ProxyReactors.ProxyUpstreamer.Honor` | proxy/proxyupstreamer.cc:12-57 | address fix-up and dispatch on the command as the machine's step, whose answers `AnsweredForWhatItIs` decides |
| `ProxyReactors.ProxyUpstreamer.MakeSocket` | proxy/proxyupstreamer.cc:59-76 | the remote socket and the TFO payload, capped at one segment; a failure is answered |
| `ProxyReactors.ProxyUpstreamer.ReadTfoPayload` | proxy/proxyupstreamer.cc:133-146 | reads only if too little is buffered, then waits or goes on |
| `ProxyReactors.ProxyUpstreamer.Interrupted` | proxy/proxyupstreamer.cc:52-56 | any exception inside `honorRequest` becomes a FAILURE reply, later ones go to `runAs` |
| `ProxyReactors.ProxyUpstreamer.SockConnect` | proxy/proxyupstreamer.cc:150-164 | connect, with the TFO bytes it sends; a failure is answered |
| `ProxyReactors.ProxyUpstreamer.FinishConnect` | proxy/proxyupstreamer.cc:168-206 | a failed connect is answered, a good one starts the downstreamer and the relay |
| `ProxyReactors.ProxyUpstreamer.Process` | proxy/proxyupstreamer.cc:101-215 | a whole call by state: new state and bytes written to the remote |
| `ProxyReactors.ProxyUpstreamer.AuthEvent` | proxy/authserver.cc:45-55 | a whole AuthServer call, on to the connect when authentication succeeded: new state, bytes to client and remote |
| `ProxyReactors.ProxyUpstreamer.HonorConnect` | proxy/proxyupstreamer.cc:59-71 | socket, TFO payload and connect in one go |
| `ProxyWorlds.NextKeeps` | proxy/proxyupstreamer.cc:101-215 | every system call of the proxy, client or remote keeps the connection's invariant |
| `ProxyWorlds.NextStable` | proxy/authserver.cc:13-43 | replies are never replaced and a closed pipe carries nothing more |
| `ProxyWorlds.ProxyOutputOrder` | proxy/authserver.cc:23-43 | whatever client and remote do, the client is sent a prefix of authReply ++ opReply ++ remote data, or of the version reply alone |
| `ProxyWorlds.ProxyGating` | proxy/proxyupstreamer.cc:31-71 | the remote socket exists only once a successful authentication reply was wholly accepted by the client's socket; `authDone` runs at most once; at most one operation reply is started |
| `Answers.AnsweredForWhatItIs` | proxy/proxyupstreamer.cc:12-206 | over every run, from the client's bytes and the remote's fate: a domain is refused as an address, a NOOP answered SUCCESS, another command refused as a command, and a CONNECT alone has a remote socket made, with its payload capped at one segment; it is answered one-shot exactly if the socket, the first read of the payload or the connect failed, with that code, and with the bound address exactly if the connect succeeded; acted on exactly once a successful authentication reply is out |
| `Progress.ServerProgress` | proxy/proxyupstreamer.cc:101-206 | over every run of a connection: when the proxy's upstreamer and AuthServer are dead, idle or waiting, and for what, from the bytes read and what the calls reported; a wrong version is answered exactly if the bytes have one |
| `ProxyWorlds.ProxyStripsRequest` | proxy/proxyupstreamer.cc:111-130 | the client's stream is the request, then what the remote was sent, then what is still on its way |
| `ProxyWorlds.ProxyRoom` | proxy/proxyupstreamer.cc:105-146 | every read from the client is offered room, for requests of at most 17 KiB however cut up |
| `Tunnels.DoKeeps` | core/streamreactor.cc:8-57 | every step of every party keeps the tunnel's invariant |
| `Tunnels.SameRequest` | proxifier/proxifierupstreamer.cc:43-77 | the request the proxy parses is the one the proxifier made |
| `Tunnels.EveryByte` | proxifier/proxifierupstreamer.cc:34-134 | each byte read from the application is at the remote, in the proxy, on the wire or in the proxifier, in this order |
| `Tunnels.EveryByteBack` | proxifier/proxifierdownstreamer.cc:75-102 | each byte read from the remote is at the application, in the downstreamer, on the wire or in the proxy, in this order |
| `Tunnels.Transparency` | proxifier/proxifierdownstreamer.cc:16-102 | end to end, over every run: the remote has a prefix of what the application wrote, the application a prefix of what the remote wrote, request and replies stripped exactly |
| `Tunnels.GracefulClose` | core/streamreactor.cc:14-42 | unless a reactor gave up for another reason, a stream ends only after its source ended and with every byte delivered, both ways |
| `Tunnels.EarlyDataOnce` | tls/tls.cc:121-172 | request and initial payload are delivered once and in order for either verdict on early data, any number of reschedules and an end of file in the middle of the handshake; `earlyWritten` never exceeds the buffered size |
| `Tunnels.RoomForEveryMessage` | core/streambuffer.hh:11-47 | in every reachable state every `recv` of every reactor is offered positive room |
| `Progress.UpstreamerProgress` | proxifier/proxifierupstreamer.cc:34-128 | over every run the upstreamer's phase is the first whose call has not succeeded; until it relays it is dead exactly if a call failed, idle exactly if its first send took nothing, and otherwise runs or waits for the event its last call asks for |
| `Progress.DownstreamerProgress` | proxifier/proxifierdownstreamer.cc:16-99 | over every run the downstreamer relays exactly if the bytes it has read begin with two successful replies, and is otherwise dead, idle or waiting as those bytes and its reads demand |
| `Closings.RelaysAccounted` | core/streamreactor.cc:8-94 | over every run of a tunnel each relay is dead exactly if a call of its own failed, open exactly until one brought or took nothing or it was destroyed, and otherwise runs or waits |
| `Closings.EndClosesOnward` | core/streamreactor.cc:14-42 | wherever in a run a relay's receive brings or its send takes nothing, from then on both its ends are closed, it waits for nothing, and the connection onward is closed and carries nothing more |
| `Wakeups.NoLostWakeupInTunnel` | proxifier/proxifierupstreamer.cc:109-128 | over every plain run of a tunnel each of its four relays, three of which begin in the middle of a `process` call, waits for input iff its buffer is empty and for output iff it is not |
| `Truncation.TransparentIffShort` | core/streambuffer.hh:68-73 | of all requests that fit the packing buffer, exactly those of at most 255 packed bytes are carried transparently in every run |
| `Truncation.LongRequestIsTruncated` | proxifier/proxifierupstreamer.cc:74-80 | for every longer one there is a run in which another request arrives |
| `Calls.StartCallIsRun` | proxifier/proxifierupstreamer.cc:34-83 | a whole `start` is a run of the tunnel in which only this reactor acts, until it can go no further, with the bytes the method returns |
| `Calls.UpCallIsRun` | proxifier/proxifierupstreamer.cc:85-134 | so is a whole `process` of the upstreamer, including the handshake: it never returns while the reactor could go on |
| `Calls.DownCallIsRun` | proxifier/proxifierdownstreamer.cc:16-102 | so is a whole `process` of the downstreamer |
| `Calls.SrvCallIsRun` | proxy/proxyupstreamer.cc:101-215 | a whole `process` of the proxy's upstreamer is a run of the proxy, until it can go no further, with the bytes the method returns |
| `Calls.AuthCallIsRun` | proxy/authserver.cc:23-55 | so is a whole `process` of the AuthServer, up to and including the connect |
| `Calls.ReplyCallIsRun` | proxy/connectproxydownstreamer.cc:16-20 | so is a whole `process` of a downstreamer of the proxy |
| `Dispatcher.TableAgreesWithKernel` | core/poller.cc:35-72 | if every log keeps the discipline: in every reachable state an entry is registered iff epoll watches that descriptor's present file, no watch outlives its descriptor, nothing was closed while registered, and no `epoll_ctl` ever meets an entry it did not expect, across close, dup and number reuse |
| `Dispatcher.DispatchSafety` | core/poller.cc:91-117 | likewise: no reactor has two armed descriptors, an armed one is recorded for an active reactor that waits on it, and no event ever finds a null or inactive reactor |
| `Dispatcher.AskingTwiceArmsTwice` | core/poller.cc:35-60 | the discipline is needed: a reactor that asks on both its descriptors is armed twice |
| `Dispatcher.CloseWhileRegisteredDisagrees` | core/uniqfd.hh:47-60 | and closing a registered descriptor whose file has another one leaves a watch behind |
| `Dispatcher.DeliverKeeps` | core/poller.cc:107-115 | a delivered event runs exactly the reactor recorded for it |
| `Dispatcher.EpollDecides` | core/poller.cc:35-72 | when an ADD, MOD or DEL fails, and what table and interest set are otherwise |
| `Dispatcher.CloseAgrees` | core/uniqfd.hh:47-60 | closing a descriptor that was removed first leaves no watch behind |
| `Dispatcher.NextHalves` | core/uniqfd.hh:81-127 | an event shuts the read half of a file iff it closes a source of it, and the write half iff it closes a destination of it |
| `Dispatcher.TeardownSparesOtherDirection` | core/uniqfd.hh:81-127 | over every run, whatever a reactor does, it never shuts the write half of a file it only reads from nor the read half of one it only writes to |
| `Dispatcher.EventLoop.Dispatch` | core/poller.cc:91-117 | one turn of the loop: what it runs is active and has been waiting for this event |
| `Dispatcher.EventLoop.Act` | core/poller.cc:35-72 | one action of a reactor through the poller, with the new state; none that keeps the discipline can fail |
| `Discipline.UpCallOrderly` | proxifier/proxifierupstreamer.cc:85-134 | a whole call of the upstreamer, through all the states it falls through, keeps the discipline and asks for at most one event |
| `Discipline.UpStartOrderly` | proxifier/proxifierupstreamer.cc:34-83 | so does its `start` |
| `Discipline.DownCallOrderly` | proxifier/proxifierdownstreamer.cc:16-102 | so does a whole call of the downstreamer |
| `Discipline.SrvCallOrderly` | proxy/proxyupstreamer.cc:101-215 | so does a whole call of the proxy's upstreamer |
| `Discipline.AuthCallOrderly` | proxy/authserver.cc:23-61 | a whole call of the AuthServer asks for at most one event for itself and at most one for the upstreamer it resumes, even where it goes on after deactivating both |
| `Discipline.ProcessOrderly` | core/streamreactor.cc:8-57 | a whole call of a relay keeps the discipline: one event at most, each end removed before it is closed |
| `Discipline.TunnelObeys` | core/streamreactor.cc:8-94 | in every run of a tunnel, whatever the request, the log of each of its reactors keeps the discipline |
| `Discipline.ProxyObeys` | proxy/proxyupstreamer.cc:101-215 | the same for the proxy between any client and any remote |
| `Discipline.LoneObeys` | core/listenreactor.cc:76-99 | the same for reactors with one descriptor: listeners, the timer, supplication agents and ReadableDeferReactors |
| `Discipline.LoopIsSafe` | core/poller.cc:35-117 | any number of tunnels, connections and lone reactors in one loop, each behaving as its code does and deactivated or destroyed at any time: table and epoll agree, no event is lost, no reactor is armed twice, nothing is closed while registered |
| `Dispatcher.Poller.constructor` | core/poller.cc:11-33 | an empty table of the expected size |
| `Dispatcher.Poller.Add` | core/poller.cc:35-60 | when it throws, and the new table and interest set |
| `Dispatcher.Poller.Remove` | core/poller.cc:62-72 | when it throws, with and without `force`; otherwise the entry and its watch go and nothing else changes |
| `Dispatcher.Poller.Take` | core/poller.cc:107-108 | one-shot: the watch is disarmed and the table forgets the reactor |
| `RelayLoops.CreatedIsReady` | core/poller.hh:53-58 | a reactor that was created and obtained its two ends, as fresh sockets or by `dup`, reads from the one file and writes to the other and meets what the rows below start from |
| `RelayLoops.ForeignKeepsMirror` | core/poller.cc:35-72 | nothing another reactor does to poller or kernel disturbs what they hold for a relay |
| `RelayLoops.RelayNeverStranded` | core/streamreactor.cc:12-84 | over every interleaving with all other reactors and with deactivation and destruction of its own, a live plain TCP relay with both ends open is armed in epoll and recorded in the table for input iff its buffer is empty and for output iff not, and no byte is lost |
| `RelayLoops.RelaySparesOtherDirection` | core/streamreactor.cc:14-94 | over every such run, down to its destruction, it leaves the write half of its source's file and the read half of its destination's as they are |
| `Timers.TickIsScanAlways` | core/timeoutreactor.cc:54-70 | ticks fire exactly what a full scan selects, at every time to come, iff every queue is in the order in which its timers were armed |
| `Timers.AddKeepsSorted` | core/timeoutreactor.hh:27-38 | adding a timer keeps that order iff the clock is not behind the last timer of its queue |
| `Timers.RefreshKeepsSorted` | core/timeoutreactor.hh:40-53 | refreshing one keeps it iff the timer is not linked or the clock is not behind the last of the others |
| `Timers.TickIsFullScan` | core/timeoutreactor.cc:54-70 | with a nondecreasing clock, after any run every queue is sorted, every timer is linked only in its own interval's queue, and a tick equals a full scan |
| `Timers.ClockSetBackMisses` | core/timeoutreactor.cc:61-65 | a history with the clock set back in which a due timer is missed |
| `Timers.FiresOnceAndInTime` | core/timeoutreactor.cc:61-69 | each timer fires at most once, at an age of at least its timeout and, with ticks at most T apart, less than its timeout plus T |
| `Timers.NeverAgain` | core/timeoutreactor.hh:40-65 | a cancelled or fired timer never fires again, even if refreshed |
| `Timers.FiresExactlyWhenDue` | core/timeoutreactor.cc:45-73 | after any run a tick fires a timer exactly if it was added, was neither cancelled nor fired, and its age since it was last added or refreshed has reached its interval |
| `Timers.AddLinks` | core/timeoutreactor.hh:27-38 | adding links that timer and changes nothing about the others |
| `Timers.RefreshLinks` | core/timeoutreactor.hh:40-53 | refreshing links and unlinks nothing |
| `Timers.CancelLinks` | core/timeoutreactor.hh:55-65 | cancelling unlinks that timer and no other |
| `Timers.TimeoutReactor.Add` | core/timeoutreactor.hh:27-38 | the timer goes to the end of its interval's queue |
| `Timers.TimeoutReactor.Refresh` | core/timeoutreactor.hh:40-53 | the arm time is set, and a linked timer moves to the end |
| `Timers.TimeoutReactor.Cancel` | core/timeoutreactor.hh:55-65 | that timer leaves its queue if linked, and all others stay (`CancelLinks`) |
| `Timers.TimeoutReactor.ExpireQueue` | core/timeoutreactor.cc:58-69 | triggers and pops exactly the leading due timers, unless one of them destroys itself under the lock, which hangs with that timer still linked |
| `Timers.TimeoutReactor.Process` | core/timeoutreactor.cc:45-73 | in whatever order the queues are visited, it comes back to ask for the next tick iff it fires no timer that destroys itself, and has then fired every popped timer once and left the rest |
| `ServerAuth.IdRoundTrip` | proxy/authutil.cc:25-55 | identifiers survive the trip through bytes in both directions |
| `ServerAuth.AuthenticateDecides` | proxy/authutil.cc:10-97 | every field of the reply, both ways, from table, checker and request: success exactly if a known session is presented and the token, if any, is good, or the credentials pass and any token of a new session is good; when a session is confirmed or rejected, a password or token reported on, a window told |
| `ServerAuth.AuthenticateStores` | proxy/authutil.cc:46-96 | only the request's own session changes or is new, it keeps its bank or has the one asked for, and exactly a good token is spent in it |
| `ServerAuth.AuthenticateFacts` | proxy/authutil.cc:10-97 | the table only grows, new identifiers come only from requests that passed, and success needs a known session or passing credentials |
| `ServerAuth.SpendIsNew` | proxy/authutil.cc:79-96 | a token that is accepted was not spent before in that session and is from then on |
| `ServerAuth.AuthenticationProvenance` | proxy/authutil.cc:15-64 | with a checker set, every success in any history traces to a password check in that request or in the earlier one that created its session |
| `ServerAuth.TokenSpentOnce` | proxy/authutil.cc:67-96 | in any history each (session, token) pair earns at most one success, and no identifier is given out twice |
| `AuthGate.NoByteUnlessAuthenticated` | proxy/authserver.cc:13-43 | with a checker set, over any number of connections, no byte reaches a remote and no remote socket exists unless the request's own credentials passed or its session was created by an earlier request whose did |
| `ServerAuth.ServerSession.CreateBank` | proxy/serversession.hh:26-36 | a bank is made at most once per session |
| `ServerAuth.Proxy.SpawnSession` | proxy/proxy.cc:34-49 | the first identifier drawn that is not in use is bound to a fresh session |
| `ServerAuth.Proxy.Authenticate` | proxy/authutil.cc:10-97 | the reply and the new table, for every request |
| `ServerAuth.Proxy.Settle` | proxy/authutil.cc:60-96 | bank, advertisement and token of a request that has a session; when it succeeds is decided by `AuthenticateDecides` |
| `ClientSessions.SupplicationLockDiscipline` | proxifier/proxifier.cc:31-75 | over every interleaving the lock is held exactly while one living supplicant is not done, and is never released while free |
| `ClientSessions.NoRequestSpeaksOfTwoSessions` | proxifier/proxifierupstreamer.cc:49-61 | no request both presents a session and asks for a new one |
| `ClientSessions.SessionClearedOnlyByItsOwn` | proxifier/proxifierdownstreamer.cc:36-43 | a session is never replaced, and only a rejecting reply to a request that presented this very session clears it |
| `ClientSessions.RejectionClears` | proxifier/proxifier.hh:53-59 | over every run, an answer to a connection that presented the current session clears it exactly if it rejects or does not confirm it, and then the next connection is given a supplicant |
| `ClientSessions.AdmittedIff` | proxifier/proxifier.cc:64-80 | over every run, a new connection is given a supplicant exactly if there is no session and no living supplicant that is not done, and captures the session there is |
| `ClientSessions.AnswerInstalls` | proxifier/sessionsupplicant.cc:18-26 | over every run, what a reply to an asking connection does to session and lock, both ways |
| `ClientSessions.RequestSays` | proxifier/proxifierupstreamer.cc:43-61 | over every run, which session, token, credentials and request for a session a connection sends |
| `ClientSessions.JointSessionCoherence` | proxifier/sessionsupplicant.cc:18-26 | with one proxy, the current session is in its table under the identifier its bytes decode to, requests presenting it are answered OK, and it is never killed |
| `ClientSessions.AskedIsGranted` | proxifier/sessionsupplicant.cc:12-16 | what a supplicant adds to a request is what earns a session and a window of 200 tokens: with it the proxy gives one exactly if the credentials pass, without it never |
| `ClientSessions.SupplicationInstalls` | proxifier/sessionsupplicant.cc:12-26 | from request to reply, the proxifier ends up with the very session the proxy made exactly if the credentials pass, and the lock is free afterwards unless the connection was turned away |
| `ClientSessions.PresentedIsOk` | proxy/authutil.cc:15-35 | a request that presents a known session is told so |
| `ClientSessions.Proxifier.Start` | proxifier/proxifier.cc:35-39 | takes the lock for the start-up supplicant |
| `ClientSessions.Proxifier.HandleNewConnection` | proxifier/proxifier.cc:64-80 | who gets a supplicant, what happens to the lock, and which session is captured |
| `ClientSessions.Proxifier.KillSession` | proxifier/proxifier.hh:53-59 | clears the session exactly if it is the very same object (`RejectionClears`) |
| `ClientSessions.Proxifier.SupplicantDone` | proxifier/proxifier.hh:68-71 | releases the lock |
| `ClientSessions.SessionSupplicant.ProcessReply` | proxifier/sessionsupplicant.cc:18-26 | installs a session if one was given, then releases the lock, once |
| `ClientSessions.SessionSupplicant.Destroy` | proxifier/sessionsupplicant.cc:6-10 | releases the lock unless that was done already |

## Left out

- Liveness: nothing says that a CONNECT with a TFO payload is eventually served, that a tunnel whose request TFO took starts promptly, or that `spawnSession` ends its retries; `Proxy.SpawnSession` assumes that some drawn identifier is unused.
- `Tunnels.GracefulClose`: says nothing about runs in which a reactor gave up because a call failed or a peer stopped reading, since the code then drops what is buffered.
- `RelayLoops.RelayNeverStranded`: plain TCP only, because TLS may wait for either direction on either descriptor.
- `Wakeups.NoLostWakeupInTunnel`: likewise plain TCP while relaying, and requests of at most 255 packed bytes, as for every theorem on tunnels.
- `Progress.UpstreamerProgress`, `Progress.DownstreamerProgress`, `Closings.RelaysAccounted`, `Closings.EndClosesOnward`: for requests of at most 255 packed bytes; nothing is said about how soon a call is made.
- The message library: requests and replies share one small concrete layout with the same self-delimiting behaviour; field validation and the exact option encodings of draft-olteanu-intarea-socks-6 are not modelled.
- The token bank and wallet libraries: a bank is known by the contract that it accepts no token twice; window movement, wallet updates and `RequestSafety::recommend` are not part of this model (what the latter recommends is arbitrary here).
- NSS and NSPR: early data counts as delivered when the server accepts it; records, certificates and error tables are not modelled, a completed handshake reports the verdict the server gave, and nothing is sent on a connection that ended during it.
- Socket creation, options, keep-alive, original-destination lookup and address conversion; the redirect of default services.
- `ListenReactor`'s accept loop, except for its use of the poller and that new connections may appear at any time.
- The byte-level state machines of the two supplication agents; their use of the poller and the first one's part in the session protocol are modelled.
- Multi-threaded runs of the poller, `Poller::stop` and `join`, and memory ordering: no worker threads are started.
- Failures of `epoll_ctl` other than an unexpected or missing entry or a closed descriptor.
- `AuthGate.NoByteUnlessAuthenticated`: how the options of a request spell credentials, session and token is left to any function of the message.
- Domain resolution, `Proxy::createBank` and `getBank`, `AuthServer::State`: stubs or unused.
- Option parsing and usage text.
