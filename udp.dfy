/** The UDP virtual interface: the table from virtual ports to client socket
    handles, the per-port queue of outbound datagrams, and how the poll loop
    grows both on bus events and drains them on every poll tick. */
module UdpIface {
  import opened Config
  import opened Events
  import opened VirtualIface

  /** One outbound datagram: where it goes and what it carries. */
  datatype Datagram = Datagram(destination: SocketAddr, data: Bytes)

  /** What the loop sees of one smoltcp UDP client socket. `sent` is every
      datagram `send_slice` has taken so far, in order. */
  datatype UdpSocket = UdpSocket(local: SocketAddr, canSend: bool, canRecv: bool, sent: seq<Datagram>)

  /** What the stack reports of a socket after it has processed packets. */
  datatype SocketStatus = SocketStatus(canSend: bool, canRecv: bool)

  /** The answer of `send_slice`: the datagram was taken, or an error. */
  datatype SendOutcome = Sent | SendFailed

  /** The queue and the socket after one send step on one port. */
  datatype SendResult = SendResult(queue: seq<Datagram>, socket: UdpSocket)

  /** The interface parameters: the source peer address, the local forwards
      and the remote forwards, all of them UDP. */
  datatype UdpVirtualInterface = UdpVirtualInterface(
    sourcePeerIp: IpAddr,
    portForwards: seq<PortForwardConfig>,
    remotePortForwards: seq<PortForwardConfig>)
  {
    /** The addresses of the UDP virtual stack: the remote forwards add none. */
    method Addresses() returns (r: seq<IpCidr>)
      ensures forall c :: c in r <==> c.prefixLen == 32 && (c.addr == sourcePeerIp || c.addr in DestinationIps(portForwards))
      ensures forall i, j :: 0 <= i < j < |r| ==> r[i] != r[j]
    {
      r := VirtualIface.Addresses(sourcePeerIp, portForwards);
    }
  }

  /** Builds the interface; both lists keep their UDP forwards only. */
  function New(portForwards: seq<PortForwardConfig>, remotePortForwards: seq<PortForwardConfig>,
               sourcePeerIp: IpAddr): (r: UdpVirtualInterface)
    ensures r.sourcePeerIp == sourcePeerIp
    ensures forall f :: f in r.portForwards <==> f in portForwards && f.protocol == Udp
    ensures forall f :: f in r.remotePortForwards <==> f in remotePortForwards && f.protocol == Udp
    ensures |r.portForwards| + |FilterProtocol(portForwards, Tcp)| == |portForwards|
    ensures |r.remotePortForwards| + |FilterProtocol(remotePortForwards, Tcp)| == |remotePortForwards|
  {
    FilterPartition(portForwards);
    FilterPartition(remotePortForwards);
    UdpVirtualInterface(sourcePeerIp, FilterProtocol(portForwards, Udp), FilterProtocol(remotePortForwards, Udp))
  }

  /** One send step on one port: a socket with room takes the front datagram
      of the queue; if `send_slice` fails, that datagram is dropped anyway. */
  function UdpSend(q: seq<Datagram>, s: UdpSocket, outcome: SendOutcome): (r: SendResult)
    ensures r.socket.local == s.local && r.socket.canSend == s.canSend && r.socket.canRecv == s.canRecv
    ensures !s.canSend || q == [] ==> r == SendResult(q, s)
    ensures s.canSend && q != [] ==> r.queue == q[1..]
    ensures s.canSend && q != [] && outcome == Sent ==> r.socket.sent == s.sent + [q[0]]
    ensures outcome == SendFailed ==> r.socket == s
  {
    if !s.canSend || q == [] then SendResult(q, s)
    else match outcome
      case Sent => SendResult(q[1..], s.(sent := s.sent + [q[0]]))
      case SendFailed => SendResult(q[1..], s)
  }

  /** A send step takes at most one datagram off the queue, the front one,
      and the socket has taken either nothing or exactly that datagram. */
  ghost predicate AtMostOneSent(q0: seq<Datagram>, sent0: seq<Datagram>, q1: seq<Datagram>, sent1: seq<Datagram>)
  {
    || (q1 == q0 && sent1 == sent0)
    || (q0 != [] && q1 == q0[1..] && (sent1 == sent0 || sent1 == sent0 + [q0[0]]))
  }

  /** A successful send step loses no datagram and reorders none: what the
      socket has taken followed by the queue is the same before and after. */
  lemma UdpSendConserves(q: seq<Datagram>, s: UdpSocket)
    ensures var r := UdpSend(q, s, Sent);
      r.socket.sent + r.queue == s.sent + q
  {
    if s.canSend && q != [] {
      assert [q[0]] + q[1..] == q;
      assert s.sent + [q[0]] + q[1..] == s.sent + q;
    }
  }

  /** The send steps of successive ticks on one port, one outcome per tick. */
  function SendEach(q: seq<Datagram>, s: UdpSocket, outcomes: seq<SendOutcome>): SendResult
  {
    if outcomes == [] then SendResult(q, s)
    else
      var r := UdpSend(q, s, outcomes[0]);
      SendEach(r.queue, r.socket, outcomes[1..])
  }

  /** While the socket has room and every send succeeds, the queue leaves one
      datagram per tick, front first: after `k` ticks the socket has taken
      the first `k` datagrams and the rest are still queued in order. */
  lemma {:induction false} SendEachInOrder(q: seq<Datagram>, s: UdpSocket, outcomes: seq<SendOutcome>)
    requires s.canSend
    requires forall i :: 0 <= i < |outcomes| ==> outcomes[i] == Sent
    ensures var k := if |outcomes| < |q| then |outcomes| else |q|;
      && SendEach(q, s, outcomes).socket.sent == s.sent + q[..k]
      && SendEach(q, s, outcomes).queue == q[k..]
  {
    if outcomes != [] {
      var r := UdpSend(q, s, outcomes[0]);
      SendEachInOrder(r.queue, r.socket, outcomes[1..]);
      if q != [] {
        var k := if |outcomes| < |q| then |outcomes| else |q|;
        assert r.queue[..k - 1] == q[1..k];
        assert r.queue[k - 1..] == q[k..];
        assert s.sent + [q[0]] + q[1..k] == s.sent + q[..k];
      }
    }
  }

  /** The events one receive step sends: the received datagram, if non-empty. */
  function RecvEvent(port: VirtualPort, s: UdpSocket, outcome: RecvOutcome): (es: seq<Event>)
    ensures |es| <= 1
    ensures es != [] <==> s.canRecv && outcome.Received? && outcome.data != []
    ensures es != [] ==> es[0] == RemoteData(port, outcome.data)
  {
    if s.canRecv && outcome.Received? && outcome.data != [] then [RemoteData(port, outcome.data)] else []
  }

  /** The loop's tables at one moment: port to handle, port to queue, the
      interface's client sockets, and the events sent on the bus so far. */
  datatype UdpTables = UdpTables(
    handles: map<VirtualPort, SocketHandle>,
    queues: map<VirtualPort, seq<Datagram>>,
    sockets: map<SocketHandle, UdpSocket>,
    events: seq<Event>)

  /** Both tables have the same keys, every mapped handle names a socket of
      the interface, and no two ports share a socket. */
  ghost predicate WellFormed(t: UdpTables)
  {
    && t.handles.Keys == t.queues.Keys
    && (forall p :: p in t.handles ==> t.handles[p] in t.sockets)
    && (forall p, q :: p in t.handles && q in t.handles && p != q ==> t.handles[p] != t.handles[q])
  }

  /** The virtual port of a remote forward: its source port, over UDP. */
  function RemotePort(f: PortForwardConfig): VirtualPort
  {
    VirtualPort(f.source.port, Udp)
  }

  /** A freshly bound client socket: its buffers are empty, so it has room
      to send and nothing to receive. */
  function FreshSocket(local: SocketAddr): UdpSocket
  {
    UdpSocket(local, true, false, [])
  }

  /** The tables after the start-up loop over the remote forwards `fs`, whose
      sockets get the handles from `base` on: each forward's source port is
      mapped to a socket bound at its source address and given an empty
      queue; a later forward with the same port replaces an earlier one. */
  function RemoteTables(fs: seq<PortForwardConfig>, base: nat): UdpTables
  {
    if fs == [] then UdpTables(map[], map[], map[], [])
    else
      var t, f, h := RemoteTables(fs[..|fs| - 1], base), fs[|fs| - 1], base + |fs| - 1;
      UdpTables(t.handles[RemotePort(f) := h], t.queues[RemotePort(f) := []],
                t.sockets[h := FreshSocket(f.source)], t.events)
  }

  /** One more remote forward is one more step of the start-up loop. */
  lemma RemoteTablesPrefix(fs: seq<PortForwardConfig>, i: nat, base: nat)
    requires i < |fs|
    ensures var t := RemoteTables(fs[..i], base);
      RemoteTables(fs[..i + 1], base) ==
        UdpTables(t.handles[RemotePort(fs[i]) := base + i], t.queues[RemotePort(fs[i]) := []],
                  t.sockets[base + i := FreshSocket(fs[i].source)], t.events)
  {
    assert fs[..i + 1][..i] == fs[..i];
  }

  /** The ports of the remote forwards `fs`. */
  function RemotePorts(fs: seq<PortForwardConfig>): set<VirtualPort>
  {
    set f | f in fs :: RemotePort(f)
  }

  /** The start-up loop maps exactly the remote forwards' ports, gives each
      an empty queue and sends no event. */
  lemma {:induction false} RemoteTablesKeys(fs: seq<PortForwardConfig>, base: nat)
    ensures var t := RemoteTables(fs, base);
      && t.handles.Keys == t.queues.Keys == RemotePorts(fs)
      && (forall p :: p in t.queues ==> t.queues[p] == [])
      && t.events == []
  {
    if fs != [] {
      var init, f := fs[..|fs| - 1], fs[|fs| - 1];
      RemoteTablesKeys(init, base);
      assert fs == init + [f];
      assert RemotePorts(fs) == RemotePorts(init) + {RemotePort(f)};
    }
  }

  /** The start-up loop gives the `i`-th remote forward the socket with
      handle `base + i`, bound at that forward's source address. */
  lemma {:induction false} RemoteTablesSockets(fs: seq<PortForwardConfig>, base: nat)
    ensures forall h :: h in RemoteTables(fs, base).sockets <==> base <= h < base + |fs|
    ensures forall h :: h in RemoteTables(fs, base).sockets ==> RemoteTables(fs, base).sockets[h] == FreshSocket(fs[h - base].source)
  {
    if fs != [] {
      var init, f, last := fs[..|fs| - 1], fs[|fs| - 1], base + |fs| - 1;
      var t, u := RemoteTables(fs, base), RemoteTables(init, base);
      RemoteTablesSockets(init, base);
      assert t.sockets == u.sockets[last := FreshSocket(f.source)];
      assert t.sockets.Keys == u.sockets.Keys + {last};
      forall h ensures h in t.sockets <==> base <= h < base + |fs| {
        assert h in u.sockets <==> base <= h < base + |init|;
      }
      forall h | h in t.sockets
        ensures t.sockets[h] == FreshSocket(fs[h - base].source)
      {
        if h != last {
          assert fs[h - base] == init[h - base];
        }
      }
    }
  }

  /** The start-up loop maps each port to the handle of a remote forward
      with that port. */
  lemma {:induction false} RemoteTablesHandles(fs: seq<PortForwardConfig>, base: nat)
    ensures forall p :: p in RemoteTables(fs, base).handles ==> base <= RemoteTables(fs, base).handles[p] < base + |fs|
    ensures forall p :: p in RemoteTables(fs, base).handles ==> RemotePort(fs[RemoteTables(fs, base).handles[p] - base]) == p
    ensures forall p, q :: p in RemoteTables(fs, base).handles && q in RemoteTables(fs, base).handles && p != q ==>
              RemoteTables(fs, base).handles[p] != RemoteTables(fs, base).handles[q]
  {
    if fs != [] {
      var init, f, last := fs[..|fs| - 1], fs[|fs| - 1], base + |fs| - 1;
      var t, u := RemoteTables(fs, base), RemoteTables(init, base);
      RemoteTablesHandles(init, base);
      assert t.handles == u.handles[RemotePort(f) := last];
      forall p | p in t.handles && p != RemotePort(f)
        ensures base <= t.handles[p] < base + |fs| && RemotePort(fs[t.handles[p] - base]) == p
      {
        var k := u.handles[p] - base;
        assert fs[k] == init[k];
      }
    }
  }

  /** The forward a port is mapped to is the last remote forward with that
      port: a later one replaces an earlier one. */
  lemma {:induction false} RemoteTablesLatest(fs: seq<PortForwardConfig>, base: nat)
    ensures forall p, j :: p in RemoteTables(fs, base).handles && 0 <= j < |fs| && RemoteTables(fs, base).handles[p] - base < j ==> RemotePort(fs[j]) != p
  {
    if fs != [] {
      var init, f, last := fs[..|fs| - 1], fs[|fs| - 1], base + |fs| - 1;
      var t, u := RemoteTables(fs, base), RemoteTables(init, base);
      RemoteTablesLatest(init, base);
      assert t.handles == u.handles[RemotePort(f) := last];
      forall p, j | p in t.handles && 0 <= j < |fs| && t.handles[p] - base < j
        ensures RemotePort(fs[j]) != p
      {
        if j < |init| {
          assert fs[j] == init[j];
        }
      }
    }
  }

  /** Before the loop starts, the tables are well formed, and every socket
      handle is below `base + |fs|`, the next one the interface gives out. */
  lemma RemoteTablesWellFormed(fs: seq<PortForwardConfig>, base: nat)
    ensures WellFormed(RemoteTables(fs, base))
    ensures forall h :: h in RemoteTables(fs, base).sockets ==> h < base + |fs|
  {
    var t := RemoteTables(fs, base);
    RemoteTablesKeys(fs, base);
    RemoteTablesSockets(fs, base);
    RemoteTablesHandles(fs, base);
  }

  /** The events of the receive steps over `order`, in order. */
  function RecvEvents(order: seq<VirtualPort>, m: map<VirtualPort, SocketHandle>,
                      s: map<SocketHandle, UdpSocket>, outcomes: map<VirtualPort, RecvOutcome>): seq<Event>
  {
    if order == [] then []
    else
      var p := order[|order| - 1];
      RecvEvents(order[..|order| - 1], m, s, outcomes) +
        (if p in m && m[p] in s && p in outcomes then RecvEvent(p, s[m[p]], outcomes[p]) else [])
  }

  /** Forwarded data always comes from a port of the iteration and is never
      empty, and each port forwards at most one datagram. */
  lemma {:induction false} RecvEventsAreRemoteData(order: seq<VirtualPort>, m: map<VirtualPort, SocketHandle>,
                                                    s: map<SocketHandle, UdpSocket>, outcomes: map<VirtualPort, RecvOutcome>)
    ensures forall e :: e in RecvEvents(order, m, s, outcomes) ==> e.RemoteData? && e.port in order && e.data != []
    ensures |RecvEvents(order, m, s, outcomes)| <= |order|
    ensures (forall i, j :: 0 <= i < j < |order| ==> order[i] != order[j]) ==>
              forall i, j :: 0 <= i < j < |RecvEvents(order, m, s, outcomes)| ==>
                RecvEvents(order, m, s, outcomes)[i].port != RecvEvents(order, m, s, outcomes)[j].port
  {
    if order != [] {
      var init, p := order[..|order| - 1], order[|order| - 1];
      assert forall q :: q in init ==> q in order;
      RecvEventsAreRemoteData(init, m, s, outcomes);
      if forall i, j :: 0 <= i < j < |order| ==> order[i] != order[j] {
        var before := RecvEvents(init, m, s, outcomes);
        assert forall e :: e in before ==> e.port != p by {
          SplitLast(order);
        }
      }
    }
  }

  /** The body of the `for` loop of a tick on one port: the send step, then
      the receive step. */
  function ServiceOne(t: UdpTables, p: VirtualPort, sends: map<VirtualPort, SendOutcome>,
                      recvs: map<VirtualPort, RecvOutcome>): UdpTables
  {
    if p in t.handles && t.handles[p] in t.sockets && p in t.queues && p in sends && p in recvs then
      var h := t.handles[p];
      var r := UdpSend(t.queues[p], t.sockets[h], sends[p]);
      UdpTables(t.handles, t.queues[p := r.queue], t.sockets[h := r.socket], t.events + RecvEvent(p, r.socket, recvs[p]))
    else t
  }

  /** The loop body applied to every port of `order`, in order. */
  function ServiceAll(t: UdpTables, order: seq<VirtualPort>, sends: map<VirtualPort, SendOutcome>,
                      recvs: map<VirtualPort, RecvOutcome>): (r: UdpTables)
    ensures r.handles == t.handles && r.queues.Keys == t.queues.Keys && r.sockets.Keys == t.sockets.Keys
  {
    if order == [] then t
    else ServiceOne(ServiceAll(t, order[..|order| - 1], sends, recvs), order[|order| - 1], sends, recvs)
  }

  /** One more port of the iteration is one more application of the loop body. */
  lemma ServiceAllPrefix(t: UdpTables, order: seq<VirtualPort>, i: nat, sends: map<VirtualPort, SendOutcome>,
                         recvs: map<VirtualPort, RecvOutcome>)
    requires i < |order|
    ensures ServiceAll(t, order[..i + 1], sends, recvs) == ServiceOne(ServiceAll(t, order[..i], sends, recvs), order[i], sends, recvs)
  {
    assert order[..i + 1][..i] == order[..i];
  }

  /** The loop leaves the queue of every port outside the iteration alone. */
  lemma {:induction false} ServiceAllOtherQueues(t: UdpTables, order: seq<VirtualPort>, sends: map<VirtualPort, SendOutcome>,
                                                 recvs: map<VirtualPort, RecvOutcome>)
    ensures forall p :: p in t.queues && p !in order ==> ServiceAll(t, order, sends, recvs).queues[p] == t.queues[p]
  {
    if order != [] {
      var init := order[..|order| - 1];
      ServiceAllOtherQueues(t, init, sends, recvs);
      assert forall p :: p in init ==> p in order;
    }
  }

  /** The loop leaves the socket of every port outside the iteration alone:
      no two ports share a socket. */
  lemma {:induction false} ServiceAllOtherSockets(t: UdpTables, order: seq<VirtualPort>, sends: map<VirtualPort, SendOutcome>,
                                                  recvs: map<VirtualPort, RecvOutcome>)
    requires WellFormed(t)
    ensures forall p :: p in t.handles && p !in order ==>
              ServiceAll(t, order, sends, recvs).sockets[t.handles[p]] == t.sockets[t.handles[p]]
  {
    if order != [] {
      var init := order[..|order| - 1];
      ServiceAllOtherSockets(t, init, sends, recvs);
      assert forall p :: p in init ==> p in order;
    }
  }

  /** Each port of the iteration has had exactly one send step on its queue,
      as the queue and the socket were when the loop started. */
  lemma {:induction false} ServiceAllQueues(t: UdpTables, order: seq<VirtualPort>, sends: map<VirtualPort, SendOutcome>,
                                            recvs: map<VirtualPort, RecvOutcome>)
    requires WellFormed(t)
    requires forall i, j :: 0 <= i < j < |order| ==> order[i] != order[j]
    requires forall p :: p in order ==> p in t.handles && p in sends && p in recvs
    ensures forall p :: p in order ==>
              ServiceAll(t, order, sends, recvs).queues[p] == UdpSend(t.queues[p], t.sockets[t.handles[p]], sends[p]).queue
  {
    if order != [] {
      var init, p := order[..|order| - 1], order[|order| - 1];
      SplitLast(order);
      ServiceAllQueues(t, init, sends, recvs);
      ServiceAllOtherQueues(t, init, sends, recvs);
      ServiceAllOtherSockets(t, init, sends, recvs);
    }
  }

  /** Each port of the iteration has had exactly one send step on its socket,
      as the queue and the socket were when the loop started. */
  lemma {:induction false} ServiceAllSockets(t: UdpTables, order: seq<VirtualPort>, sends: map<VirtualPort, SendOutcome>,
                                             recvs: map<VirtualPort, RecvOutcome>)
    requires WellFormed(t)
    requires forall i, j :: 0 <= i < j < |order| ==> order[i] != order[j]
    requires forall p :: p in order ==> p in t.handles && p in sends && p in recvs
    ensures forall p :: p in order ==>
              ServiceAll(t, order, sends, recvs).sockets[t.handles[p]] == UdpSend(t.queues[p], t.sockets[t.handles[p]], sends[p]).socket
  {
    if order != [] {
      var init, p := order[..|order| - 1], order[|order| - 1];
      SplitLast(order);
      ServiceAllSockets(t, init, sends, recvs);
      ServiceAllOtherQueues(t, init, sends, recvs);
      ServiceAllOtherSockets(t, init, sends, recvs);
      forall q | q in init
        ensures t.handles[q] != t.handles[p]
      {
      }
    }
  }

  /** The data received during the loop is forwarded in iteration order,
      one event per port that had data. */
  lemma {:induction false} ServiceAllEvents(t: UdpTables, order: seq<VirtualPort>, sends: map<VirtualPort, SendOutcome>,
                                            recvs: map<VirtualPort, RecvOutcome>)
    requires WellFormed(t)
    requires forall i, j :: 0 <= i < j < |order| ==> order[i] != order[j]
    requires forall p :: p in order ==> p in t.handles && p in sends && p in recvs
    ensures ServiceAll(t, order, sends, recvs).events == t.events + RecvEvents(order, t.handles, t.sockets, recvs)
  {
    if order != [] {
      var init, p := order[..|order| - 1], order[|order| - 1];
      SplitLast(order);
      ServiceAllEvents(t, init, sends, recvs);
      ServiceAllOtherSockets(t, init, sends, recvs);
      var u, h := ServiceAll(t, init, sends, recvs), t.handles[p];
      var r := UdpSend(u.queues[p], u.sockets[h], sends[p]);
      assert ServiceAll(t, order, sends, recvs).events == u.events + RecvEvent(p, r.socket, recvs[p]);
      assert r.socket.canRecv == t.sockets[h].canRecv;
    }
  }

  /** Over a whole iteration of the mapped ports, every port has sent at most
      one datagram, the front of its queue, and lost nothing else. */
  lemma ServiceAllAtMostOne(t: UdpTables, order: seq<VirtualPort>, sends: map<VirtualPort, SendOutcome>,
                            recvs: map<VirtualPort, RecvOutcome>)
    requires WellFormed(t)
    requires Enumerates(order, t.handles.Keys)
    requires forall p :: p in t.handles ==> p in sends && p in recvs
    ensures var r := ServiceAll(t, order, sends, recvs);
      forall p :: p in t.handles ==>
        AtMostOneSent(t.queues[p], t.sockets[t.handles[p]].sent, r.queues[p], r.sockets[t.handles[p]].sent)
  {
    ServiceAllQueues(t, order, sends, recvs);
    ServiceAllSockets(t, order, sends, recvs);
  }

  /** The sockets after the stack has processed packets (`iface.poll`): each
      socket in `status` takes on what it can now do; nothing else changes. */
  function PollSockets(s: map<SocketHandle, UdpSocket>, status: map<SocketHandle, SocketStatus>): (r: map<SocketHandle, UdpSocket>)
    ensures r.Keys == s.Keys
    ensures forall h :: h in r ==> r[h].local == s[h].local && r[h].sent == s[h].sent
    ensures forall h :: h in r && h !in status ==> r[h] == s[h]
  {
    map h | h in s :: if h in status then s[h].(canSend := status[h].canSend, canRecv := status[h].canRecv) else s[h]
  }

  /** The tables after one tick: the stack processes packets, then the loop
      body runs on every port of `order`. */
  function Tick(t: UdpTables, status: map<SocketHandle, SocketStatus>, order: seq<VirtualPort>,
                sends: map<VirtualPort, SendOutcome>, recvs: map<VirtualPort, RecvOutcome>): UdpTables
  {
    ServiceAll(t.(sockets := PollSockets(t.sockets, status)), order, sends, recvs)
  }

  /** A tick over every mapped port adds and removes no port, sends at most
      the front datagram of each queue, and only appends events: non-empty
      data received on mapped ports, at most one per port. */
  lemma TickSpec(t: UdpTables, status: map<SocketHandle, SocketStatus>, order: seq<VirtualPort>,
                 sends: map<VirtualPort, SendOutcome>, recvs: map<VirtualPort, RecvOutcome>)
    requires WellFormed(t)
    requires Enumerates(order, t.handles.Keys)
    requires forall p :: p in t.handles ==> p in sends && p in recvs
    ensures var r := Tick(t, status, order, sends, recvs);
      && WellFormed(r)
      && r.handles == t.handles && r.queues.Keys == t.queues.Keys && r.sockets.Keys == t.sockets.Keys
      && (forall p :: p in t.handles ==>
            AtMostOneSent(t.queues[p], t.sockets[t.handles[p]].sent, r.queues[p], r.sockets[t.handles[p]].sent))
      && |t.events| <= |r.events| <= |t.events| + |t.handles|
      && r.events[..|t.events|] == t.events
      && (forall e :: e in r.events[|t.events|..] ==> e.RemoteData? && e.port in t.handles && e.data != [])
      && (forall i, j :: |t.events| <= i < j < |r.events| ==> r.events[i].port != r.events[j].port)
  {
    var t1 := t.(sockets := PollSockets(t.sockets, status));
    ServiceAllAtMostOne(t1, order, sends, recvs);
    ServiceAllEvents(t1, order, sends, recvs);
    RecvEventsAreRemoteData(order, t1.handles, t1.sockets, recvs);
    EnumeratesCount(order, t.handles.Keys);
    var data := RecvEvents(order, t1.handles, t1.sockets, recvs);
    var r := Tick(t, status, order, sends, recvs);
    assert r.events[|t.events|..] == data;
    forall i, j | |t.events| <= i < j < |r.events|
      ensures r.events[i].port != r.events[j].port
    {
      assert r.events[i] == data[i - |t.events|] && r.events[j] == data[j - |t.events|];
    }
  }

  /** The state of one UDP poll loop. */
  class UdpPollLoop {
    const sourcePeerIp: IpAddr
    /** `port_client_handle_map`: virtual port to client socket handle. */
    var portClientHandleMap: map<VirtualPort, SocketHandle>
    /** `send_queue`: virtual port to the datagrams still to be sent, front first. */
    var sendQueue: map<VirtualPort, seq<Datagram>>
    /** The client sockets the smoltcp interface holds, by handle. */
    var sockets: map<SocketHandle, UdpSocket>
    /** The handle the interface gives the next socket it is handed. */
    var nextHandle: SocketHandle
    /** `next_poll`: the deadline of the next tick; `None` polls at once. */
    var nextPoll: Option<Instant>
    /** `wake`: set once the loop has had something to do. */
    var wake: bool
    /** The events this loop has sent on the bus, in order. */
    var emitted: seq<Event>

    /** The tables as one value. */
    function Snapshot(): UdpTables
      reads this
    {
      UdpTables(portClientHandleMap, sendQueue, sockets, emitted)
    }

    /** The tables are well formed and every socket's handle lies below
        the next one the model draws. */
    ghost predicate Valid()
      reads this
    {
      && WellFormed(Snapshot())
      && (forall h :: h in sockets ==> h < nextHandle)
    }

    /** The sleep the loop selects before its next tick. */
    function CurrentSleep(): (r: Sleep)
      reads this
      ensures r == Forever <==> nextPoll.None? && !wake
      ensures r == Immediately <==> nextPoll.None? && wake
      ensures nextPoll.Some? ==> r == Until(nextPoll.value)
    {
      SleepFor(nextPoll, wake)
    }

    /** The loop before its first event: one server socket per local forward
        (not kept here; they only take the first handles), then one client
        socket per remote forward, mapped and with an empty queue. */
    constructor (iface: UdpVirtualInterface)
      ensures Valid()
      ensures sourcePeerIp == iface.sourcePeerIp
      ensures Snapshot() == RemoteTables(iface.remotePortForwards, |iface.portForwards|)
      ensures nextHandle == |iface.portForwards| + |iface.remotePortForwards|
      ensures nextPoll == None && !wake
    {
      var fs, base := iface.remotePortForwards, |iface.portForwards|;
      var handles: map<VirtualPort, SocketHandle> := map[];
      var queues: map<VirtualPort, seq<Datagram>> := map[];
      var clients: map<SocketHandle, UdpSocket> := map[];
      var next := base;
      for i := 0 to |fs|
        invariant next == base + i
        invariant UdpTables(handles, queues, clients, []) == RemoteTables(fs[..i], base)
      {
        RemoteTablesPrefix(fs, i, base);
        var port := RemotePort(fs[i]);
        clients := clients[next := FreshSocket(fs[i].source)];
        handles := handles[port := next];
        queues := queues[port := []];
        next := next + 1;
      }
      assert fs[..|fs|] == fs;
      RemoteTablesWellFormed(fs, base);
      sourcePeerIp := iface.sourcePeerIp;
      portClientHandleMap := handles;
      sendQueue := queues;
      sockets := clients;
      nextHandle := next;
      nextPoll := None;
      wake := false;
      emitted := [];
    }

    /** `LocalData`: queue the datagram for the forward's destination behind
        the port's queue; a port without a queue gets a new client socket
        bound at the source peer address and a queue holding just this
        datagram. Either way the loop wakes up at once. */
    method LocalData(forward: PortForwardConfig, port: VirtualPort, data: Bytes)
      requires Valid()
      modifies this
      ensures Valid()
      ensures port in old(sendQueue) ==>
                && sendQueue == old(sendQueue)[port := old(sendQueue)[port] + [Datagram(forward.destination, data)]]
                && portClientHandleMap == old(portClientHandleMap)
                && sockets == old(sockets) && nextHandle == old(nextHandle)
      ensures port !in old(sendQueue) ==>
                && old(nextHandle) !in old(sockets) && nextHandle == old(nextHandle) + 1
                && portClientHandleMap == old(portClientHandleMap)[port := old(nextHandle)]
                && sendQueue == old(sendQueue)[port := [Datagram(forward.destination, data)]]
                && sockets == old(sockets)[old(nextHandle) := FreshSocket(SocketAddr(sourcePeerIp, port.num))]
      ensures nextPoll == None && wake && emitted == old(emitted)
      ensures CurrentSleep() == Immediately
    {
      var datagram := Datagram(forward.destination, data);
      if port in sendQueue {
        sendQueue := sendQueue[port := sendQueue[port] + [datagram]];
      } else {
        var handle := nextHandle;
        nextHandle := nextHandle + 1;
        sockets := sockets[handle := FreshSocket(SocketAddr(sourcePeerIp, port.num))];
        portClientHandleMap := portClientHandleMap[port := handle];
        sendQueue := sendQueue[port := [datagram]];
      }
      nextPoll := None;
      wake := true;
    }

    /** `VirtualDeviceFed`: packets for the UDP stack arrived; wake up at once. */
    method VirtualDeviceFed(protocol: PortProtocol)
      requires Valid()
      modifies this`nextPoll, this`wake
      ensures Valid()
      ensures protocol == Udp ==> nextPoll == None && wake
      ensures protocol == Tcp ==> nextPoll == old(nextPoll) && wake == old(wake)
    {
      if protocol == Udp {
        nextPoll := None;
        wake := true;
      }
    }

    /** One bus event, dispatched to its arm; every other event is ignored.
        No event removes a port, and none clears `wake`. */
    method HandleEvent(e: Event)
      requires Valid()
      modifies this
      ensures Valid()
      ensures old(portClientHandleMap).Keys <= portClientHandleMap.Keys
      ensures forall p :: p in old(portClientHandleMap) ==> portClientHandleMap[p] == old(portClientHandleMap)[p]
      ensures old(wake) ==> wake
      ensures e.LocalData? ==> e.port in portClientHandleMap && CurrentSleep() == Immediately
      ensures e.LocalData? && e.port in old(sendQueue) ==>
                && sendQueue == old(sendQueue)[e.port := old(sendQueue)[e.port] + [Datagram(e.forward.destination, e.data)]]
                && portClientHandleMap == old(portClientHandleMap)
                && sockets == old(sockets) && nextHandle == old(nextHandle)
      ensures e.LocalData? && e.port !in old(sendQueue) ==>
                && old(nextHandle) !in old(sockets) && nextHandle == old(nextHandle) + 1
                && portClientHandleMap == old(portClientHandleMap)[e.port := old(nextHandle)]
                && sendQueue == old(sendQueue)[e.port := [Datagram(e.forward.destination, e.data)]]
                && sockets == old(sockets)[old(nextHandle) := FreshSocket(SocketAddr(sourcePeerIp, e.port.num))]
      ensures e.LocalData? || e == Event.VirtualDeviceFed(Udp) ==> nextPoll == None && wake
      ensures e == Event.VirtualDeviceFed(Udp) ==>
                && portClientHandleMap == old(portClientHandleMap) && sendQueue == old(sendQueue)
                && sockets == old(sockets) && nextHandle == old(nextHandle)
      ensures !e.LocalData? && e != Event.VirtualDeviceFed(Udp) ==> unchanged(this)
      ensures emitted == old(emitted)
    {
      match e
      case LocalData(forward, port, data) => LocalData(forward, port, data);
      case VirtualDeviceFed(protocol) => VirtualDeviceFed(protocol);
      case _ =>
    }

    /** The stack processes packets (`iface.poll`): any socket may change
        what it can do; nothing the loop keeps changes. */
    method InterfacePoll(status: map<SocketHandle, SocketStatus>)
      requires Valid()
      modifies this`sockets
      ensures Valid()
      ensures sockets == PollSockets(old(sockets), status)
    {
      sockets := PollSockets(sockets, status);
    }

    /** The send half of the loop body on one port. */
    method SendStep(port: VirtualPort, outcome: SendOutcome)
      requires Valid()
      requires port in portClientHandleMap
      modifies this`sendQueue, this`sockets
      ensures Valid()
      ensures sendQueue == old(sendQueue)[port :=
                UdpSend(old(sendQueue)[port], old(sockets)[portClientHandleMap[port]], outcome).queue]
      ensures sockets == old(sockets)[portClientHandleMap[port] :=
                UdpSend(old(sendQueue)[port], old(sockets)[portClientHandleMap[port]], outcome).socket]
    {
      var handle := portClientHandleMap[port];
      var socket := sockets[handle];
      var queue := sendQueue[port];
      if socket.canSend && queue != [] {
        var datagram := queue[0];
        queue := queue[1..];
        match outcome {
          case Sent =>
            socket := socket.(sent := socket.sent + [datagram]);
          case SendFailed =>
        }
      }
      sendQueue := sendQueue[port := queue];
      sockets := sockets[handle := socket];
    }

    /** The receive half of the loop body: forward a non-empty datagram. */
    method RecvStep(port: VirtualPort, outcome: RecvOutcome)
      requires Valid()
      requires port in portClientHandleMap
      modifies this`emitted
      ensures emitted == old(emitted) + RecvEvent(port, sockets[portClientHandleMap[port]], outcome)
    {
      var socket := sockets[portClientHandleMap[port]];
      if socket.canRecv {
        match outcome {
          case Received(data) =>
            if data != [] {
              emitted := emitted + [Event.RemoteData(port, data)];
            }
          case RecvFailed =>
        }
      }
    }

    /** The loop body on one port: the send step, then the receive step. */
    method ServicePort(port: VirtualPort, sends: map<VirtualPort, SendOutcome>, recvs: map<VirtualPort, RecvOutcome>)
      requires Valid()
      modifies this`sendQueue, this`sockets, this`emitted
      ensures Valid()
      ensures Snapshot() == ServiceOne(old(Snapshot()), port, sends, recvs)
    {
      if port in portClientHandleMap && port in sends && port in recvs {
        SendStep(port, sends[port]);
        RecvStep(port, recvs[port]);
      }
    }

    /** The loop over every mapped port, in the iteration order `order`. */
    method ServiceSockets(order: seq<VirtualPort>, sends: map<VirtualPort, SendOutcome>,
                          recvs: map<VirtualPort, RecvOutcome>)
      requires Valid()
      requires Enumerates(order, portClientHandleMap.Keys)
      requires forall p :: p in portClientHandleMap ==> p in sends && p in recvs
      modifies this`sendQueue, this`sockets, this`emitted
      ensures Valid()
      ensures Snapshot() == ServiceAll(old(Snapshot()), order, sends, recvs)
    {
      ghost var t0 := Snapshot();
      var i := 0;
      while i < |order|
        invariant 0 <= i <= |order|
        invariant Valid()
        invariant Snapshot() == ServiceAll(t0, order[..i], sends, recvs)
      {
        ServiceAllPrefix(t0, order, i, sends, recvs);
        ServicePort(order[i], sends, recvs);
        i := i + 1;
      }
      assert order[..|order|] == order;
    }

    /** The last phase of a tick: take the stack's requested delay as the
        next deadline. */
    method ScheduleNextPoll(delay: Option<nat>, now: Instant)
      requires Valid()
      modifies this`nextPoll
      ensures Valid()
      ensures nextPoll == NextPollAfter(delay, now)
    {
      nextPoll := NextPollAfter(delay, now);
    }

    /** A whole tick: let the stack process packets, service every port,
        schedule the next tick. The `wake` flag stays as it is. */
    method PollTick(status: map<SocketHandle, SocketStatus>, order: seq<VirtualPort>,
                    sends: map<VirtualPort, SendOutcome>, recvs: map<VirtualPort, RecvOutcome>,
                    delay: Option<nat>, now: Instant)
      requires Valid()
      requires Enumerates(order, portClientHandleMap.Keys)
      requires forall p :: p in portClientHandleMap ==> p in sends && p in recvs
      modifies this`sendQueue, this`sockets, this`emitted, this`nextPoll
      ensures Valid()
      ensures Snapshot() == Tick(old(Snapshot()), status, order, sends, recvs)
      ensures nextPoll == NextPollAfter(delay, now)
    {
      InterfacePoll(status);
      ServiceSockets(order, sends, recvs);
      ScheduleNextPoll(delay, now);
    }
  }
}
