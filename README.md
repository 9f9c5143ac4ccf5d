# onetun virtual interfaces: a verified model of the poll-loop bookkeeping

onetun forwards TCP and UDP traffic through a WireGuard tunnel. It does so by
running a user-space IP stack (smoltcp) per protocol. Each protocol has a
*virtual interface* whose `poll_loop` owns two tables, both keyed by a
`VirtualPort` (a port number and a protocol):

- `port_client_handle_map`: virtual port to the handle of its client socket
  in the stack;
- `send_queue`: virtual port to the FIFO of data still to be handed to that
  socket. TCP queues byte chunks; UDP queues `(destination, bytes)` datagrams.

The loop reacts to bus events (a connection opened or dropped, local data,
packets fed to the device) and to poll ticks. On a TCP tick it first sweeps
out the sockets in state `Closed`. It then sends at most one queued item per
port, forwards received data as `RemoteData`, and picks its next wake-up time.

This project models both loops in Dafny and proves what they promise.

- `config.dfy`: module `Config`. Addresses, forwards, and the protocol
  filter both constructors apply.
- `events.dfy`: module `Events`. `VirtualPort`, bytes, and the bus events.
- `virtual_iface.dfy`: module `VirtualIface`. What both interfaces share:
  - the interface-address loop;
  - socket handles and instants;
  - the sleep selection;
  - the next-poll deadline;
  - iteration orders of a hash map.
- `tcp.dfy`: module `TcpIface`. The TCP interface.
  - `TcpSend` is one send step with partial-send requeue and the `CloseWait`
    close.
  - `SweepAll` and `ServiceAll` are the sweep and the service loop as pure
    folds over an iteration order.
  - `TcpPollLoop` is a class with one method per event arm and per tick
    phase. Each method is proved against those folds.
- `udp.dfy`: module `UdpIface`. The UDP interface, built the same way.
  - `RemoteTables` is the start-up loop over remote forwards.
  - `UdpSend` is the one-datagram send step.
  - `UdpPollLoop` is the class, with its `wake` flag.

Inputs the program gets from outside are parameters of the methods:

- what `send_slice` accepts (`SendOutcome`);
- what `recv` returns (`RecvOutcome`);
- how `iface.poll` changes each socket (`status`);
- what `poll_delay` answers;
- the current time;
- the order in which a `HashMap` is iterated. This is a list that names every
  key once (`Enumerates`). Every property is proved for every such order.

Each loop records the bus events it sends in a field `emitted`.

## Model

| member | source | states |
|---|---|---|
| Config.FilterProtocol | src/virtual_iface/tcp.rs:30-33 | the kept forwards are exactly those of the given protocol, never more than the input, and all of them when every forward already has that protocol |
| Config.FilterAppend | src/virtual_iface/tcp.rs:30-33 | filtering a concatenation is the concatenation of the filtered parts: the filter keeps the original order |
| Config.FilterPartition | src/virtual_iface/udp.rs:36-43 | the TCP and the UDP filter together keep every forward exactly once |
| VirtualIface.Addresses | src/virtual_iface/tcp.rs:66-76 | the result holds the source peer address and every forward's destination address, each as a /32, each once, and nothing else |
| VirtualIface.SleepFor | src/virtual_iface/tcp.rs:114-117 | no deadline and nothing pending sleeps forever; no deadline with something pending polls at once; a deadline sleeps until it |
| VirtualIface.NextPollAfter | src/virtual_iface/tcp.rs:187-194 | no delay or a zero delay gives no deadline; otherwise the deadline is `now` plus the delay cut to whole milliseconds |
| TcpIface.New | src/virtual_iface/tcp.rs:28-37 | the interface keeps exactly the TCP forwards and its source peer address |
| TcpIface.TcpVirtualInterface.Addresses | src/virtual_iface/tcp.rs:66-76 | the TCP stack's addresses are the source peer and the TCP forwards' destinations, each a /32 once |
| TcpIface.FlattenAppend | src/virtual_iface/tcp.rs:228-233 | pushing a chunk to the back of a queue appends its bytes to the queue's bytes |
| TcpIface.CloseState | src/virtual_iface/tcp.rs:164-166 | `close()` moves a socket that never got past `SynSent` straight to `Closed`, and no other socket; after it the socket is in no state that can still send |
| TcpIface.Close | src/virtual_iface/tcp.rs:221-227 | a closed socket has `close` recorded, takes its new state at once, can no longer send, and keeps its endpoints, its received-data flag and the bytes it took |
| TcpIface.DroppedBeforeConnectIsSwept | src/virtual_iface/tcp.rs:221-227 | a connection dropped while still in `SynSent` is removed from both tables, and its drop reported, by the very next sweep |
| TcpIface.TcpSend | src/virtual_iface/tcp.rs:145-166 | a socket that cannot send is untouched; a partial send puts the unsent suffix back at the front; a full send or an error pops the chunk; an empty queue stays empty and no byte is taken; `close` is called exactly when the socket can send, its queue is empty and it is in `CloseWait`, and then the socket is `Close` of the old one |
| TcpIface.TcpSendConservesBytes | src/virtual_iface/tcp.rs:147-157 | after a successful send, the bytes the socket took followed by the queued bytes equal those before: nothing is lost, duplicated or reordered |
| TcpIface.RecvEvent | src/virtual_iface/tcp.rs:169-183 | a receive step sends one `RemoteData` exactly when the socket can receive and returned non-empty data |
| TcpIface.ClosedPorts | src/virtual_iface/tcp.rs:122-124 | the closed ports are mapped ports |
| TcpIface.DropEventsMembers | src/virtual_iface/tcp.rs:122-133 | the sweep reports closed ports of the iteration and nothing else, and it reports every one of them |
| TcpIface.DropEventsCount | src/virtual_iface/tcp.rs:122-133 | each closed port is reported exactly once |
| TcpIface.RemovedWellFormed | src/virtual_iface/tcp.rs:126-127 | removing ports from both tables together with their sockets keeps the tables well formed |
| TcpIface.SweepStep | src/virtual_iface/tcp.rs:122-133 | one `retain` step on a closed port removes it from both tables and its socket, and reports it; on any other port it changes nothing |
| TcpIface.SweepAllSpec | src/virtual_iface/tcp.rs:122-133 | the whole sweep removes exactly the closed ports, their queues and their sockets, and sends one drop per closed port in iteration order |
| TcpIface.RecvEventsAreRemoteData | src/virtual_iface/tcp.rs:169-176 | forwarded data is always non-empty, comes from a port of the iteration, and when the iteration visits each port once, no two events name the same port |
| TcpIface.ServiceAll | src/virtual_iface/tcp.rs:143-184 | the service loop changes no mapping and no key set |
| TcpIface.ServiceAllOtherQueues | src/virtual_iface/tcp.rs:143-184 | ports outside the iteration keep their queue |
| TcpIface.ServiceAllOtherSockets | src/virtual_iface/tcp.rs:143-184 | ports outside the iteration keep their socket |
| TcpIface.ServiceAllUnmappedSockets | src/virtual_iface/tcp.rs:143-184 | sockets no port maps to are untouched |
| TcpIface.ServiceAllQueues | src/virtual_iface/tcp.rs:143-168 | every port of the iteration has had exactly one send step on its queue |
| TcpIface.ServiceAllSockets | src/virtual_iface/tcp.rs:143-168 | every port of the iteration has had exactly one send step on its socket |
| TcpIface.ServiceAllEvents | src/virtual_iface/tcp.rs:143-184 | the loop's events are the receive events of the ports in iteration order |
| TcpIface.PollSockets | src/virtual_iface/tcp.rs:135-141 | processing packets keeps every socket and what the loop did to it (bytes taken, close called) |
| TcpIface.TickSpec | src/virtual_iface/tcp.rs:118-194 | a tick removes exactly the closed ports and keeps the others' mappings; its events are one drop per closed port, then non-empty data from remaining ports |
| TcpIface.TcpPollLoop.CurrentSleep | src/virtual_iface/tcp.rs:114-117 | the loop sleeps forever with no deadline and no mapped port, polls at once with no deadline and some mapped port, otherwise sleeps until the deadline |
| TcpIface.TcpPollLoop.constructor | src/virtual_iface/tcp.rs:95-110 | the loop starts with empty tables, no deadline, and client handles after the server sockets' |
| TcpIface.TcpPollLoop.ClientConnectionInitiated | src/virtual_iface/tcp.rs:198-220 | a fresh socket connecting from the source peer address and the virtual port to the forward's destination is mapped, with an empty queue, and the loop polls at once |
| TcpIface.TcpPollLoop.ClientConnectionDropped | src/virtual_iface/tcp.rs:221-227 | a mapped port's socket becomes `Close` of itself (so a socket still in `SynSent` is swept on the next tick) and the loop polls at once; an unmapped port changes nothing |
| TcpIface.TcpPollLoop.LocalData | src/virtual_iface/tcp.rs:228-233 | data is appended to the back of an existing queue and the loop polls at once; a port without a queue changes nothing |
| TcpIface.TcpPollLoop.VirtualDeviceFed | src/virtual_iface/tcp.rs:234-236 | packets for TCP clear the deadline; packets for UDP change nothing |
| TcpIface.TcpPollLoop.HandleEvent | src/virtual_iface/tcp.rs:196-238 | each arm's new state: an initiated connection maps its port to a fresh `SynSent` socket with an empty queue; a drop closes a mapped port's socket; local data for a mapped port goes to the back of its queue; all of these and TCP device events clear the deadline; no event removes a port or sends an event; remote data, unrelated events, UDP device events, and drops or data for unknown ports change nothing |
| TcpIface.TcpPollLoop.SweepPort | src/virtual_iface/tcp.rs:122-133 | one `retain` step as `SweepOne` |
| TcpIface.TcpPollLoop.Sweep | src/virtual_iface/tcp.rs:122-133 | the tables after the sweep are the old tables without the closed ports, after one drop per closed port |
| TcpIface.TcpPollLoop.InterfacePoll | src/virtual_iface/tcp.rs:135-141 | the sockets become `PollSockets` of the old sockets |
| TcpIface.TcpPollLoop.SendStep | src/virtual_iface/tcp.rs:145-168 | the port's queue and socket become the result of `TcpSend` |
| TcpIface.TcpPollLoop.RecvStep | src/virtual_iface/tcp.rs:169-183 | the events grow by `RecvEvent` of the port |
| TcpIface.TcpPollLoop.ServicePort | src/virtual_iface/tcp.rs:143-184 | the tables become `ServiceOne` of the old ones |
| TcpIface.TcpPollLoop.ServiceSockets | src/virtual_iface/tcp.rs:143-184 | the tables become `ServiceAll` of the old ones over the iteration order |
| TcpIface.TcpPollLoop.ScheduleNextPoll | src/virtual_iface/tcp.rs:187-194 | the deadline becomes `NextPollAfter` of the requested delay |
| TcpIface.TcpPollLoop.PollTick | src/virtual_iface/tcp.rs:118-194 | the tables become `Tick` of the old ones and the deadline is set from the delay |
| UdpIface.New | src/virtual_iface/udp.rs:29-47 | both the local and the remote forward lists keep exactly their UDP forwards |
| UdpIface.UdpVirtualInterface.Addresses | src/virtual_iface/udp.rs:87-97 | the UDP stack's addresses are the source peer and the local forwards' destinations only, each a /32 once |
| UdpIface.UdpSend | src/virtual_iface/udp.rs:163-180 | a socket that can send takes the front datagram; on an error that datagram is dropped; otherwise queue and socket are untouched |
| UdpIface.UdpSendConserves | src/virtual_iface/udp.rs:163-178 | after a successful send, the datagrams taken followed by the queue equal those before |
| UdpIface.SendEachInOrder | src/virtual_iface/udp.rs:161-180 | while sends succeed, each tick sends the next datagram in FIFO order: after k ticks the first k datagrams have gone and the rest wait in order |
| UdpIface.RecvEvent | src/virtual_iface/udp.rs:181-195 | a receive step sends one `RemoteData` exactly when the socket can receive and returned a non-empty datagram |
| UdpIface.RemoteTablesKeys | src/virtual_iface/udp.rs:130-140 | before the loop, exactly the remote forwards' source ports are mapped, each with an empty queue |
| UdpIface.RemoteTablesSockets | src/virtual_iface/udp.rs:130-140 | the i-th remote forward gets a fresh socket bound at its source address |
| UdpIface.RemoteTablesHandles | src/virtual_iface/udp.rs:130-140 | each port is mapped to the socket of a remote forward with that port, and no two ports share a socket |
| UdpIface.RemoteTablesLatest | src/virtual_iface/udp.rs:130-140 | when two remote forwards share a port, the later one's socket is the mapped one |
| UdpIface.RemoteTablesWellFormed | src/virtual_iface/udp.rs:130-140 | the start-up tables are well formed and use only handles below the next free one |
| UdpIface.RecvEventsAreRemoteData | src/virtual_iface/udp.rs:181-187 | forwarded data is always non-empty, comes from a port of the iteration, and when the iteration visits each port once, no two events name the same port |
| UdpIface.ServiceAll | src/virtual_iface/udp.rs:161-196 | the service loop changes no mapping and no key set |
| UdpIface.ServiceAllOtherQueues | src/virtual_iface/udp.rs:161-196 | ports outside the iteration keep their queue |
| UdpIface.ServiceAllOtherSockets | src/virtual_iface/udp.rs:161-196 | ports outside the iteration keep their socket |
| UdpIface.ServiceAllQueues | src/virtual_iface/udp.rs:161-180 | every port of the iteration has had exactly one send step on its queue |
| UdpIface.ServiceAllSockets | src/virtual_iface/udp.rs:161-180 | every port of the iteration has had exactly one send step on its socket |
| UdpIface.ServiceAllEvents | src/virtual_iface/udp.rs:161-196 | the loop's events are the receive events of the ports in iteration order |
| UdpIface.ServiceAllAtMostOne | src/virtual_iface/udp.rs:161-180 | over a whole iteration, each port sends at most the front datagram of its queue and loses nothing else |
| UdpIface.PollSockets | src/virtual_iface/udp.rs:153-159 | processing packets keeps every socket, its address and the datagrams it took |
| UdpIface.TickSpec | src/virtual_iface/udp.rs:150-206 | a tick adds and removes no port, sends at most each queue's front datagram, and only appends non-empty data from mapped ports, no two of the new events naming the same port |
| UdpIface.UdpPollLoop.CurrentSleep | src/virtual_iface/udp.rs:142-149 | the loop sleeps forever with no deadline and `wake` unset, polls at once with no deadline and `wake` set, otherwise sleeps until the deadline |
| UdpIface.UdpPollLoop.constructor | src/virtual_iface/udp.rs:111-142 | the loop starts with the remote forwards' tables, handles after the server sockets', no deadline and `wake` unset |
| UdpIface.UdpPollLoop.LocalData | src/virtual_iface/udp.rs:210-227 | the datagram for the forward's destination goes to the back of an existing queue; otherwise a fresh socket bound at the source peer address is mapped with a queue holding just that datagram; either way `wake` is set and the loop polls at once |
| UdpIface.UdpPollLoop.VirtualDeviceFed | src/virtual_iface/udp.rs:228-231 | packets for UDP clear the deadline and set `wake`; packets for TCP change nothing |
| UdpIface.UdpPollLoop.HandleEvent | src/virtual_iface/udp.rs:208-234 | each arm's new state: local data goes to the back of an existing queue, or a fresh socket bound at the source peer address is mapped with a queue holding just that datagram; local data and UDP device events clear the deadline and set `wake`; no event removes or re-maps a port, clears `wake` or sends an event; every other event changes nothing |
| UdpIface.UdpPollLoop.InterfacePoll | src/virtual_iface/udp.rs:153-159 | the sockets become `PollSockets` of the old sockets |
| UdpIface.UdpPollLoop.SendStep | src/virtual_iface/udp.rs:163-180 | the port's queue and socket become the result of `UdpSend` |
| UdpIface.UdpPollLoop.RecvStep | src/virtual_iface/udp.rs:181-195 | the events grow by `RecvEvent` of the port |
| UdpIface.UdpPollLoop.ServicePort | src/virtual_iface/udp.rs:161-196 | the tables become `ServiceOne` of the old ones |
| UdpIface.UdpPollLoop.ServiceSockets | src/virtual_iface/udp.rs:161-196 | the tables become `ServiceAll` of the old ones over the iteration order |
| UdpIface.UdpPollLoop.ScheduleNextPoll | src/virtual_iface/udp.rs:199-206 | the deadline becomes `NextPollAfter` of the requested delay |
| UdpIface.UdpPollLoop.PollTick | src/virtual_iface/udp.rs:150-206 | the tables become `Tick` of the old ones, the deadline is set from the delay, and `wake` stays as it is |

## Left out

- smoltcp itself is not modelled: the interface, its sockets and buffers, and
  the TCP state machine of RFC 793 section 3.2. A socket is a record. The
  stack's answers are inputs: what `iface.poll` does to each socket, how many
  bytes `send_slice` takes, what `recv` returns, and what `poll_delay` asks for.
  The loop itself changes a socket's state in two places, and both are
  modelled. `connect()` (tcp.rs:208-217) is rendered by creating the socket
  already in `SynSent`. `close()` is modelled by `CloseState`. Every other
  change of state arrives through `iface.poll`.
- TcpIface.Close: `close()` leaves whether the socket can receive as it was.
  smoltcp's `can_recv` depends only on the receive buffer, which `close()`
  does not touch. The loop reads it right after the `CloseWait` close
  (tcp.rs:165,169).
- The listening and bound server sockets for local forwards, with their
  zero-length static buffers, are not kept in the socket table. Their only
  effect modelled is that they take the first socket handles.
- Socket creation, `bind` and `connect` are assumed to succeed. In the
  program a failure ends the loop with an error (the `?`), which is not
  modelled.
- `tokio::select!`, the sleeps, the clock and the kill switch are not
  modelled. Each select arm is a method, the chosen sleep is a `Sleep` value,
  and the current time is a parameter in milliseconds.
- The broadcast bus is an append-only list of sent events (`emitted`).
  Receiving from the bus is a call to `HandleEvent`.
- Logging (`trace!`, `debug!`, `error!`) is not modelled.
- `MAX_PACKET` and buffer capacities are not modelled. They only bound what
  `send_slice` and `recv` can move, and those are inputs.
- TcpIface.TcpSend: an `Accepted` count at or above the chunk length is
  treated as a full send. smoltcp never reports more than it was given.
- TcpIface.TcpSendConservesBytes: stated for successful sends only. On a
  `send_slice` error the program drops the popped chunk, and the model does
  the same.
- UdpIface.UdpSendConserves: stated for successful sends only, for the same
  reason.
- The rest of the repository is not part of this model: the tunnel dispatch,
  the port pools, the FFI layer, the CLI and the runtime setup.
