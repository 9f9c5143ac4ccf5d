/** The TCP virtual interface: the table from virtual ports to client socket
    handles, the per-port queue of outbound chunks, and how the poll loop
    updates both on bus events and on every poll tick. */
module TcpIface {
  import opened Config
  import opened Events
  import opened VirtualIface

  /** The states of a TCP connection (section 3.2 of RFC 793). */
  datatype TcpState =
    | Closed | Listen | SynSent | SynReceived | Established
    | FinWait1 | FinWait2 | CloseWait | Closing | LastAck | TimeWait

  /** What the loop sees of one smoltcp client socket. `accepted` is every
      byte `send_slice` has taken so far, in order; `closeCalled` records that
      the loop has asked the socket to close. */
  datatype TcpSocket = TcpSocket(
    local: SocketAddr,
    remote: SocketAddr,
    state: TcpState,
    canSend: bool,
    canRecv: bool,
    accepted: Bytes,
    closeCalled: bool)

  /** What the stack reports of a socket after it has processed packets. */
  datatype SocketStatus = SocketStatus(state: TcpState, canSend: bool, canRecv: bool)

  /** The answer of `send_slice`: how many bytes it took, or an error. */
  datatype SendOutcome = Accepted(count: nat) | SendFailed

  /** The queue and the socket after one send step on one port. */
  datatype SendResult = SendResult(queue: seq<Bytes>, socket: TcpSocket)

  /** The interface parameters: the source peer address and the TCP forwards. */
  datatype TcpVirtualInterface = TcpVirtualInterface(sourcePeerIp: IpAddr, portForwards: seq<PortForwardConfig>)
  {
    /** The addresses of the TCP virtual stack. */
    method Addresses() returns (r: seq<IpCidr>)
      ensures forall c :: c in r <==> c.prefixLen == 32 && (c.addr == sourcePeerIp || c.addr in DestinationIps(portForwards))
      ensures forall i, j :: 0 <= i < j < |r| ==> r[i] != r[j]
    {
      r := VirtualIface.Addresses(sourcePeerIp, portForwards);
    }
  }

  /** Builds the interface; it keeps the TCP forwards only. */
  function New(portForwards: seq<PortForwardConfig>, sourcePeerIp: IpAddr): (r: TcpVirtualInterface)
    ensures r.sourcePeerIp == sourcePeerIp
    ensures forall f :: f in r.portForwards <==> f in portForwards && f.protocol == Tcp
    ensures |r.portForwards| + |FilterProtocol(portForwards, Udp)| == |portForwards|
  {
    FilterPartition(portForwards);
    TcpVirtualInterface(sourcePeerIp, FilterProtocol(portForwards, Tcp))
  }

  /** The bytes of a queue of chunks, front first. */
  function Flatten(q: seq<Bytes>): Bytes
  {
    if q == [] then [] else q[0] + Flatten(q[1..])
  }

  /** Appending a chunk at the back appends its bytes to the byte stream. */
  lemma {:induction false} FlattenAppend(q: seq<Bytes>, chunk: Bytes)
    ensures Flatten(q + [chunk]) == Flatten(q) + chunk
  {
    if q == [] {
      assert [] + [chunk] == [chunk];
      assert Flatten([chunk]) == chunk + Flatten([]);
    } else {
      assert (q + [chunk])[0] == q[0];
      assert (q + [chunk])[1..] == q[1..] + [chunk];
      FlattenAppend(q[1..], chunk);
    }
  }

  /** The state smoltcp's `close()` moves a socket to: a socket that never
      got past `SynSent` (or `Listen`) is closed at once; an open connection
      sends its FIN (`FinWait1`, or `LastAck` once the peer has closed); a
      socket whose sending half is already closed stays where it is. */
  function CloseState(st: TcpState): (r: TcpState)
    ensures r == Closed <==> st == Closed || st == Listen || st == SynSent
    ensures r != Listen && r != SynSent && r != SynReceived && r != Established && r != CloseWait
    ensures st != Listen && st != SynSent && st != SynReceived && st != Established && st != CloseWait ==> r == st
  {
    match st
    case Listen | SynSent => Closed
    case SynReceived | Established => FinWait1
    case CloseWait => LastAck
    case _ => st
  }

  /** A socket after `close()`: its state moves on at once and it can no
      longer send (smoltcp sends only in `Established` and `CloseWait`);
      nothing else about it changes. */
  function Close(s: TcpSocket): (r: TcpSocket)
    ensures r.closeCalled && !r.canSend
    ensures r.state == CloseState(s.state)
    ensures r.local == s.local && r.remote == s.remote && r.canRecv == s.canRecv && r.accepted == s.accepted
  {
    s.(state := CloseState(s.state), canSend := false, closeCalled := true)
  }

  /** One send step on one port: if the socket can send, pop the front chunk
      and hand it to the socket, putting back at the front whatever part of it
      the socket did not take (`sent < total`); with nothing queued, close a
      socket whose peer has already closed. `send_slice` never reports more
      bytes than it was given, so `sent >= total` means the whole chunk. */
  function TcpSend(q: seq<Bytes>, s: TcpSocket, outcome: SendOutcome): (r: SendResult)
    ensures r.socket.local == s.local && r.socket.remote == s.remote && r.socket.canRecv == s.canRecv
    ensures r.socket.closeCalled <==> s.closeCalled || (s.canSend && q == [] && s.state == CloseWait)
    ensures !(s.canSend && q == [] && s.state == CloseWait) ==>
              r.socket == s.(accepted := r.socket.accepted)
    ensures !s.canSend ==> r == SendResult(q, s)
    ensures s.canSend && q == [] ==> r.queue == [] && r.socket.accepted == s.accepted
    ensures s.canSend && q == [] && s.state == CloseWait ==> r.socket == Close(s)
    ensures s.canSend && q != [] && outcome.SendFailed? ==> r == SendResult(q[1..], s)
    ensures s.canSend && q != [] && outcome.Accepted? && outcome.count < |q[0]| ==>
              && r.queue == [q[0][outcome.count..]] + q[1..]
              && r.socket.accepted == s.accepted + q[0][..outcome.count]
    ensures s.canSend && q != [] && outcome.Accepted? && outcome.count >= |q[0]| ==>
              r.queue == q[1..] && r.socket.accepted == s.accepted + q[0]
  {
    if !s.canSend then SendResult(q, s)
    else if q == [] then
      SendResult(q, if s.state == CloseWait then Close(s) else s)
    else
      var chunk, rest := q[0], q[1..];
      match outcome
      case SendFailed => SendResult(rest, s)
      case Accepted(sent) =>
        if sent < |chunk| then SendResult([chunk[sent..]] + rest, s.(accepted := s.accepted + chunk[..sent]))
        else SendResult(rest, s.(accepted := s.accepted + chunk))
  }

  /** A partial send loses, duplicates and reorders nothing: the bytes the
      socket has taken followed by the bytes still queued are the same before
      and after a successful send step. */
  lemma {:induction false} TcpSendConservesBytes(q: seq<Bytes>, s: TcpSocket, outcome: SendOutcome)
    requires outcome.Accepted?
    ensures TcpSend(q, s, outcome).socket.accepted + Flatten(TcpSend(q, s, outcome).queue) == s.accepted + Flatten(q)
  {
    var r := TcpSend(q, s, outcome);
    if s.canSend && q != [] {
      var chunk, rest, n := q[0], q[1..], outcome.count;
      assert Flatten(q) == chunk + Flatten(rest);
      if n < |chunk| {
        assert r.queue[0] == chunk[n..] && r.queue[1..] == rest;
        assert Flatten(r.queue) == chunk[n..] + Flatten(rest);
        assert chunk[..n] + chunk[n..] == chunk;
      }
    }
  }

  /** The events one receive step sends: the received bytes, if any. */
  function RecvEvent(port: VirtualPort, s: TcpSocket, outcome: RecvOutcome): (es: seq<Event>)
    ensures |es| <= 1
    ensures es != [] <==> s.canRecv && outcome.Received? && outcome.data != []
    ensures es != [] ==> es[0] == RemoteData(port, outcome.data)
  {
    if s.canRecv && outcome.Received? && outcome.data != [] then [RemoteData(port, outcome.data)] else []
  }

  /** The loop's tables at one moment: port to handle, port to queue, the
      interface's client sockets, and the events sent on the bus so far. */
  datatype TcpTables = TcpTables(
    handles: map<VirtualPort, SocketHandle>,
    queues: map<VirtualPort, seq<Bytes>>,
    sockets: map<SocketHandle, TcpSocket>,
    events: seq<Event>)

  /** Both tables have the same keys, every mapped handle names a socket of
      the interface, and no two ports share a socket. */
  ghost predicate WellFormed(t: TcpTables)
  {
    && t.handles.Keys == t.queues.Keys
    && (forall p :: p in t.handles ==> t.handles[p] in t.sockets)
    && (forall p, q :: p in t.handles && q in t.handles && p != q ==> t.handles[p] != t.handles[q])
  }

  /** The ports of `m` whose socket is in the `Closed` state. */
  function ClosedPorts(m: map<VirtualPort, SocketHandle>, s: map<SocketHandle, TcpSocket>): (c: set<VirtualPort>)
    ensures c <= m.Keys
  {
    set p | p in m && m[p] in s && s[m[p]].state == Closed
  }

  /** The handles `m` gives to the ports `ps`. */
  function HandlesOf(m: map<VirtualPort, SocketHandle>, ps: set<VirtualPort>): set<SocketHandle>
  {
    set p | p in ps && p in m :: m[p]
  }

  /** A port outside `ps` adds its own handle to the handles of `ps`, one
      that none of them has, when no two ports share a handle. */
  lemma HandlesOfInsert(m: map<VirtualPort, SocketHandle>, ps: set<VirtualPort>, p: VirtualPort)
    requires p in m && p !in ps
    requires forall a, b :: a in m && b in m && a != b ==> m[a] != m[b]
    ensures m[p] !in HandlesOf(m, ps)
    ensures HandlesOf(m, ps + {p}) == HandlesOf(m, ps) + {m[p]}
  {
  }

  /** One `ClientConnectionDropped` per closed port, in iteration order. */
  function DropEvents(order: seq<VirtualPort>, closed: set<VirtualPort>): seq<Event>
  {
    if order == [] then []
    else
      var p := order[|order| - 1];
      DropEvents(order[..|order| - 1], closed) + (if p in closed then [ClientConnectionDropped(p)] else [])
  }

  /** The sweep reports closed ports of the iteration and nothing else, and
      it reports every one of them. */
  lemma {:induction false} DropEventsMembers(order: seq<VirtualPort>, closed: set<VirtualPort>)
    ensures forall e :: e in DropEvents(order, closed) ==> e.ClientConnectionDropped? && e.port in closed && e.port in order
    ensures forall p :: p in closed && p in order ==> Event.ClientConnectionDropped(p) in DropEvents(order, closed)
  {
    if order != [] {
      var init, p := order[..|order| - 1], order[|order| - 1];
      DropEventsMembers(init, closed);
      assert order == init + [p];
      forall q | q in closed && q in order
        ensures Event.ClientConnectionDropped(q) in DropEvents(order, closed)
      {
        if q != p {
          assert q in init;
        }
      }
    }
  }

  /** Adding one new key to a set adds one to its intersection with `closed`
      exactly when the key is closed. */
  lemma ClosedCountStep(closed: set<VirtualPort>, before: set<VirtualPort>, after: set<VirtualPort>, p: VirtualPort)
    requires after == before + {p} && p !in before
    ensures |closed * after| == |closed * before| + (if p in closed then 1 else 0)
  {
    if p in closed {
      assert closed * after == closed * before + {p};
    } else {
      assert closed * after == closed * before;
    }
  }

  /** The sweep reports each closed port of the iteration exactly once. */
  lemma {:induction false} DropEventsCount(order: seq<VirtualPort>, closed: set<VirtualPort>)
    requires forall i, j :: 0 <= i < j < |order| ==> order[i] != order[j]
    ensures |DropEvents(order, closed)| == |closed * Elements(order)|
  {
    if order == [] {
      assert closed * Elements(order) == {};
    } else {
      var init, p := order[..|order| - 1], order[|order| - 1];
      SplitLast(order);
      DropEventsCount(init, closed);
      ClosedCountStep(closed, Elements(init), Elements(order), p);
    }
  }

  /** The `retain` closure on one port: a port whose socket is `Closed` is
      reported, loses its queue and its socket, and leaves the map. */
  function SweepOne(t: TcpTables, p: VirtualPort): TcpTables
  {
    if p in t.handles && t.handles[p] in t.sockets && t.sockets[t.handles[p]].state == Closed
    then TcpTables(t.handles - {p}, t.queues - {p}, t.sockets - {t.handles[p]},
                   t.events + [ClientConnectionDropped(p)])
    else t
  }

  /** The closure applied to every port of `order`, in order. */
  function SweepAll(t: TcpTables, order: seq<VirtualPort>): TcpTables
  {
    if order == [] then t
    else SweepOne(SweepAll(t, order[..|order| - 1]), order[|order| - 1])
  }

  /** One more port of the iteration is one more application of the closure. */
  lemma SweepAllPrefix(t: TcpTables, order: seq<VirtualPort>, i: nat)
    requires i < |order|
    ensures SweepAll(t, order[..i + 1]) == SweepOne(SweepAll(t, order[..i]), order[i])
  {
    assert order[..i + 1][..i] == order[..i];
  }

  /** The tables without the ports `ps`, their queues and their sockets,
      after the events `es` have been sent. */
  function Removed(t: TcpTables, ps: set<VirtualPort>, es: seq<Event>): TcpTables
  {
    TcpTables(t.handles - ps, t.queues - ps, t.sockets - HandlesOf(t.handles, ps), t.events + es)
  }

  /** Removing ports together with their sockets keeps the tables well formed. */
  lemma RemovedWellFormed(t: TcpTables, ps: set<VirtualPort>, es: seq<Event>)
    requires WellFormed(t)
    ensures WellFormed(Removed(t, ps, es))
  {
    var u := Removed(t, ps, es);
    forall p | p in u.handles
      ensures u.handles[p] in u.sockets
    {
      assert t.handles[p] !in HandlesOf(t.handles, ps);
    }
  }

  /** One more port of the iteration: the sweep so far, followed by the
      closure on `p`, removes `p` too exactly when it is closed. */
  lemma SweepStep(t: TcpTables, done: set<VirtualPort>, es: seq<Event>, p: VirtualPort)
    requires WellFormed(t)
    requires done <= ClosedPorts(t.handles, t.sockets) && p !in done
    ensures p in ClosedPorts(t.handles, t.sockets) ==>
              SweepOne(Removed(t, done, es), p) == Removed(t, done + {p}, es + [ClientConnectionDropped(p)])
    ensures p !in ClosedPorts(t.handles, t.sockets) ==> SweepOne(Removed(t, done, es), p) == Removed(t, done, es)
  {
    var u := Removed(t, done, es);
    if p in t.handles {
      var h := t.handles[p];
      HandlesOfInsert(t.handles, done, p);
      assert p in u.handles && u.handles[p] == h && h in u.sockets && u.sockets[h] == t.sockets[h];
      if p in ClosedPorts(t.handles, t.sockets) {
        assert u.handles - {p} == t.handles - (done + {p});
        assert u.queues - {p} == t.queues - (done + {p});
        assert u.sockets - {h} == t.sockets - HandlesOf(t.handles, done + {p});
      }
    }
  }

  /** The sweep removes exactly the closed ports of the iteration from both
      tables and their sockets from the interface, reports each of them in
      iteration order, and leaves every other entry as it was. */
  lemma {:induction false} SweepAllSpec(t: TcpTables, order: seq<VirtualPort>)
    requires WellFormed(t)
    requires forall i, j :: 0 <= i < j < |order| ==> order[i] != order[j]
    ensures SweepAll(t, order) == Removed(t, ClosedPorts(t.handles, t.sockets) * Elements(order),
                                         DropEvents(order, ClosedPorts(t.handles, t.sockets)))
  {
    var closed := ClosedPorts(t.handles, t.sockets);
    if order == [] {
      assert closed * Elements(order) == {};
      assert HandlesOf(t.handles, {}) == {};
      assert Removed(t, {}, []) == t;
    } else {
      var init, p := order[..|order| - 1], order[|order| - 1];
      SplitLast(order);
      SweepAllSpec(t, init);
      SweepStep(t, closed * Elements(init), DropEvents(init, closed), p);
      if p in closed {
        assert closed * Elements(order) == closed * Elements(init) + {p};
      } else {
        assert closed * Elements(order) == closed * Elements(init);
      }
    }
  }

  /** A connection dropped before it got past `SynSent` is gone after the
      next sweep: its port leaves both tables and its drop is reported. */
  lemma DroppedBeforeConnectIsSwept(t: TcpTables, p: VirtualPort, order: seq<VirtualPort>)
    requires WellFormed(t)
    requires p in t.handles && t.sockets[t.handles[p]].state == SynSent
    requires Enumerates(order, t.handles.Keys)
    ensures p !in SweepAll(t.(sockets := t.sockets[t.handles[p] := Close(t.sockets[t.handles[p]])]), order).handles
    ensures Event.ClientConnectionDropped(p) in
              SweepAll(t.(sockets := t.sockets[t.handles[p] := Close(t.sockets[t.handles[p]])]), order).events
  {
    var u := t.(sockets := t.sockets[t.handles[p] := Close(t.sockets[t.handles[p]])]);
    var closed := ClosedPorts(u.handles, u.sockets);
    assert p in closed;
    SweepAllSpec(u, order);
    DropEventsMembers(order, closed);
  }

  /** The events of the receive steps over `order`, in order. */
  function RecvEvents(order: seq<VirtualPort>, m: map<VirtualPort, SocketHandle>,
                      s: map<SocketHandle, TcpSocket>, outcomes: map<VirtualPort, RecvOutcome>): seq<Event>
  {
    if order == [] then []
    else
      var p := order[|order| - 1];
      RecvEvents(order[..|order| - 1], m, s, outcomes) +
        (if p in m && m[p] in s && p in outcomes then RecvEvent(p, s[m[p]], outcomes[p]) else [])
  }

  /** Forwarded data always comes from a port of the iteration and is never
      empty, and when the iteration visits each port once, no port forwards
      twice. */
  lemma {:induction false} RecvEventsAreRemoteData(order: seq<VirtualPort>, m: map<VirtualPort, SocketHandle>,
                                                    s: map<SocketHandle, TcpSocket>, outcomes: map<VirtualPort, RecvOutcome>)
    ensures forall e :: e in RecvEvents(order, m, s, outcomes) ==> e.RemoteData? && e.port in order && e.data != []
    ensures |RecvEvents(order, m, s, outcomes)| <= |order|
    ensures (forall i, j :: 0 <= i < j < |order| ==> order[i] != order[j]) ==>
              forall i, j :: 0 <= i < j < |RecvEvents(order, m, s, outcomes)| ==>
                RecvEvents(order, m, s, outcomes)[i].port != RecvEvents(order, m, s, outcomes)[j].port
  {
    if order != [] {
      var init, p := order[..|order| - 1], order[|order| - 1];
      assert forall q :: q in init ==> q in order;
      RecvEventsAreRemoteData(init, m, s, outcomes);
      if forall i, j :: 0 <= i < j < |order| ==> order[i] != order[j] {
        var before := RecvEvents(init, m, s, outcomes);
        assert forall e :: e in before ==> e.port != p by {
          SplitLast(order);
        }
      }
    }
  }

  /** The body of the `for` loop of a tick on one port: the send step, then
      the receive step. */
  function ServiceOne(t: TcpTables, p: VirtualPort, sends: map<VirtualPort, SendOutcome>,
                      recvs: map<VirtualPort, RecvOutcome>): TcpTables
  {
    if p in t.handles && t.handles[p] in t.sockets && p in t.queues && p in sends && p in recvs then
      var h := t.handles[p];
      var r := TcpSend(t.queues[p], t.sockets[h], sends[p]);
      TcpTables(t.handles, t.queues[p := r.queue], t.sockets[h := r.socket], t.events + RecvEvent(p, r.socket, recvs[p]))
    else t
  }

  /** The loop body applied to every port of `order`, in order. */
  function ServiceAll(t: TcpTables, order: seq<VirtualPort>, sends: map<VirtualPort, SendOutcome>,
                      recvs: map<VirtualPort, RecvOutcome>): (r: TcpTables)
    ensures r.handles == t.handles && r.queues.Keys == t.queues.Keys && r.sockets.Keys == t.sockets.Keys
  {
    if order == [] then t
    else ServiceOne(ServiceAll(t, order[..|order| - 1], sends, recvs), order[|order| - 1], sends, recvs)
  }

  /** One more port of the iteration is one more application of the loop body. */
  lemma ServiceAllPrefix(t: TcpTables, order: seq<VirtualPort>, i: nat, sends: map<VirtualPort, SendOutcome>,
                         recvs: map<VirtualPort, RecvOutcome>)
    requires i < |order|
    ensures ServiceAll(t, order[..i + 1], sends, recvs) == ServiceOne(ServiceAll(t, order[..i], sends, recvs), order[i], sends, recvs)
  {
    assert order[..i + 1][..i] == order[..i];
  }

  /** The loop leaves the queue of every port outside the iteration alone. */
  lemma {:induction false} ServiceAllOtherQueues(t: TcpTables, order: seq<VirtualPort>, sends: map<VirtualPort, SendOutcome>,
                                                 recvs: map<VirtualPort, RecvOutcome>)
    ensures forall p :: p in t.queues && p !in order ==> ServiceAll(t, order, sends, recvs).queues[p] == t.queues[p]
  {
    if order != [] {
      var init := order[..|order| - 1];
      ServiceAllOtherQueues(t, init, sends, recvs);
      assert forall p :: p in init ==> p in order;
    }
  }

  /** The loop leaves the socket of every port outside the iteration alone:
      no two ports share a socket. */
  lemma {:induction false} ServiceAllOtherSockets(t: TcpTables, order: seq<VirtualPort>, sends: map<VirtualPort, SendOutcome>,
                                                  recvs: map<VirtualPort, RecvOutcome>)
    requires WellFormed(t)
    ensures forall p :: p in t.handles && p !in order ==>
              ServiceAll(t, order, sends, recvs).sockets[t.handles[p]] == t.sockets[t.handles[p]]
  {
    if order != [] {
      var init := order[..|order| - 1];
      ServiceAllOtherSockets(t, init, sends, recvs);
      assert forall p :: p in init ==> p in order;
    }
  }

  /** The loop leaves alone every socket that no port maps to. */
  lemma {:induction false} ServiceAllUnmappedSockets(t: TcpTables, order: seq<VirtualPort>, sends: map<VirtualPort, SendOutcome>,
                                                     recvs: map<VirtualPort, RecvOutcome>)
    ensures forall h :: h in t.sockets && h !in t.handles.Values ==> ServiceAll(t, order, sends, recvs).sockets[h] == t.sockets[h]
  {
    if order != [] {
      ServiceAllUnmappedSockets(t, order[..|order| - 1], sends, recvs);
    }
  }

  /** Each port of the iteration has had exactly one send step on its queue,
      as the queue and the socket were when the loop started. */
  lemma {:induction false} ServiceAllQueues(t: TcpTables, order: seq<VirtualPort>, sends: map<VirtualPort, SendOutcome>,
                                            recvs: map<VirtualPort, RecvOutcome>)
    requires WellFormed(t)
    requires forall i, j :: 0 <= i < j < |order| ==> order[i] != order[j]
    requires forall p :: p in order ==> p in t.handles && p in sends && p in recvs
    ensures forall p :: p in order ==>
              ServiceAll(t, order, sends, recvs).queues[p] == TcpSend(t.queues[p], t.sockets[t.handles[p]], sends[p]).queue
  {
    if order != [] {
      var init, p := order[..|order| - 1], order[|order| - 1];
      SplitLast(order);
      ServiceAllQueues(t, init, sends, recvs);
      ServiceAllOtherQueues(t, init, sends, recvs);
      ServiceAllOtherSockets(t, init, sends, recvs);
    }
  }

  /** Each port of the iteration has had exactly one send step on its socket,
      as the queue and the socket were when the loop started. */
  lemma {:induction false} ServiceAllSockets(t: TcpTables, order: seq<VirtualPort>, sends: map<VirtualPort, SendOutcome>,
                                             recvs: map<VirtualPort, RecvOutcome>)
    requires WellFormed(t)
    requires forall i, j :: 0 <= i < j < |order| ==> order[i] != order[j]
    requires forall p :: p in order ==> p in t.handles && p in sends && p in recvs
    ensures forall p :: p in order ==>
              ServiceAll(t, order, sends, recvs).sockets[t.handles[p]] == TcpSend(t.queues[p], t.sockets[t.handles[p]], sends[p]).socket
  {
    if order != [] {
      var init, p := order[..|order| - 1], order[|order| - 1];
      SplitLast(order);
      ServiceAllSockets(t, init, sends, recvs);
      ServiceAllOtherQueues(t, init, sends, recvs);
      ServiceAllOtherSockets(t, init, sends, recvs);
      forall q | q in init
        ensures t.handles[q] != t.handles[p]
      {
      }
    }
  }

  /** The data received during the loop is forwarded in iteration order,
      one event per port that had data. */
  lemma {:induction false} ServiceAllEvents(t: TcpTables, order: seq<VirtualPort>, sends: map<VirtualPort, SendOutcome>,
                                            recvs: map<VirtualPort, RecvOutcome>)
    requires WellFormed(t)
    requires forall i, j :: 0 <= i < j < |order| ==> order[i] != order[j]
    requires forall p :: p in order ==> p in t.handles && p in sends && p in recvs
    ensures ServiceAll(t, order, sends, recvs).events == t.events + RecvEvents(order, t.handles, t.sockets, recvs)
  {
    if order != [] {
      var init, p := order[..|order| - 1], order[|order| - 1];
      SplitLast(order);
      ServiceAllEvents(t, init, sends, recvs);
      ServiceAllOtherSockets(t, init, sends, recvs);
      var u, h := ServiceAll(t, init, sends, recvs), t.handles[p];
      var r := TcpSend(u.queues[p], u.sockets[h], sends[p]);
      assert ServiceAll(t, order, sends, recvs).events == u.events + RecvEvent(p, r.socket, recvs[p]);
      assert r.socket.canRecv == t.sockets[h].canRecv;
    }
  }

  /** The events of a tick, cut back into the events before it, the drops
      and the forwarded data. */
  lemma TickEvents(before: seq<Event>, drops: seq<Event>, data: seq<Event>)
    ensures (before + drops + data)[..|before|] == before
    ensures (before + drops + data)[|before|..|before| + |drops|] == drops
    ensures (before + drops + data)[|before| + |drops|..] == data
  {
  }

  /** The sockets after the stack has processed packets (`iface.poll`): each
      socket in `status` takes on its new state and what it can now do;
      nothing the loop has done to a socket changes. */
  function PollSockets(s: map<SocketHandle, TcpSocket>, status: map<SocketHandle, SocketStatus>): (r: map<SocketHandle, TcpSocket>)
    ensures r.Keys == s.Keys
    ensures forall h :: h in r ==> r[h].accepted == s[h].accepted && r[h].closeCalled == s[h].closeCalled
    ensures forall h :: h in r && h !in status ==> r[h] == s[h]
  {
    map h | h in s ::
      if h in status
      then s[h].(state := status[h].state, canSend := status[h].canSend, canRecv := status[h].canRecv)
      else s[h]
  }

  /** The tables after one tick: the sweep over `sweepOrder`, the stack
      processing packets, then the loop body on every port of `serviceOrder`. */
  function Tick(t: TcpTables, sweepOrder: seq<VirtualPort>, status: map<SocketHandle, SocketStatus>,
                serviceOrder: seq<VirtualPort>, sends: map<VirtualPort, SendOutcome>,
                recvs: map<VirtualPort, RecvOutcome>): TcpTables
  {
    var swept := SweepAll(t, sweepOrder);
    ServiceAll(swept.(sockets := PollSockets(swept.sockets, status)), serviceOrder, sends, recvs)
  }

  /** A tick removes exactly the ports whose socket was `Closed` and leaves
      the others mapped to the same socket; its events are one drop per
      removed port, then non-empty data received on the remaining ports. */
  lemma TickSpec(t: TcpTables, sweepOrder: seq<VirtualPort>, status: map<SocketHandle, SocketStatus>,
                 serviceOrder: seq<VirtualPort>, sends: map<VirtualPort, SendOutcome>,
                 recvs: map<VirtualPort, RecvOutcome>)
    requires WellFormed(t)
    requires Enumerates(sweepOrder, t.handles.Keys)
    requires Enumerates(serviceOrder, t.handles.Keys - ClosedPorts(t.handles, t.sockets))
    requires forall p :: p in t.handles ==> p in sends && p in recvs
    ensures WellFormed(Tick(t, sweepOrder, status, serviceOrder, sends, recvs))
    ensures Tick(t, sweepOrder, status, serviceOrder, sends, recvs).handles.Keys == t.handles.Keys - ClosedPorts(t.handles, t.sockets)
    ensures forall p :: p in Tick(t, sweepOrder, status, serviceOrder, sends, recvs).handles ==>
              Tick(t, sweepOrder, status, serviceOrder, sends, recvs).handles[p] == t.handles[p]
    ensures |Tick(t, sweepOrder, status, serviceOrder, sends, recvs).events| >= |t.events| + |ClosedPorts(t.handles, t.sockets)|
    ensures Tick(t, sweepOrder, status, serviceOrder, sends, recvs).events[..|t.events|] == t.events
    ensures forall e :: e in Tick(t, sweepOrder, status, serviceOrder, sends, recvs).events[|t.events|..|t.events| + |ClosedPorts(t.handles, t.sockets)|] ==>
              e.ClientConnectionDropped? && e.port in ClosedPorts(t.handles, t.sockets)
    ensures forall p :: p in ClosedPorts(t.handles, t.sockets) ==>
              Event.ClientConnectionDropped(p) in Tick(t, sweepOrder, status, serviceOrder, sends, recvs).events[|t.events|..|t.events| + |ClosedPorts(t.handles, t.sockets)|]
    ensures forall e :: e in Tick(t, sweepOrder, status, serviceOrder, sends, recvs).events[|t.events| + |ClosedPorts(t.handles, t.sockets)|..] ==>
              e.RemoteData? && e.port in Tick(t, sweepOrder, status, serviceOrder, sends, recvs).handles && e.data != []
  {
    var closed := ClosedPorts(t.handles, t.sockets);
    var drops := DropEvents(sweepOrder, closed);
    SweepAllSpec(t, sweepOrder);
    assert closed * Elements(sweepOrder) == closed;
    DropEventsCount(sweepOrder, closed);
    DropEventsMembers(sweepOrder, closed);
    RemovedWellFormed(t, closed, drops);
    var swept := SweepAll(t, sweepOrder);
    assert swept == Removed(t, closed, drops);
    var polled := swept.(sockets := PollSockets(swept.sockets, status));
    ServiceAllEvents(polled, serviceOrder, sends, recvs);
    var data := RecvEvents(serviceOrder, polled.handles, polled.sockets, recvs);
    RecvEventsAreRemoteData(serviceOrder, polled.handles, polled.sockets, recvs);
    TickEvents(t.events, drops, data);
    assert Tick(t, sweepOrder, status, serviceOrder, sends, recvs).events == t.events + drops + data;
  }

  /** The state of one TCP poll loop. */
  class TcpPollLoop {
    const sourcePeerIp: IpAddr
    /** `port_client_handle_map`: virtual port to client socket handle. */
    var portClientHandleMap: map<VirtualPort, SocketHandle>
    /** `send_queue`: virtual port to the chunks still to be sent, front first. */
    var sendQueue: map<VirtualPort, seq<Bytes>>
    /** The client sockets the smoltcp interface holds, by handle. */
    var sockets: map<SocketHandle, TcpSocket>
    /** The handle the interface gives the next socket it is handed. */
    var nextHandle: SocketHandle
    /** `next_poll`: the deadline of the next tick; `None` polls at once. */
    var nextPoll: Option<Instant>
    /** The events this loop has sent on the bus, in order. */
    var emitted: seq<Event>

    /** The tables as one value. */
    function Snapshot(): TcpTables
      reads this
    {
      TcpTables(portClientHandleMap, sendQueue, sockets, emitted)
    }

    /** The tables are well formed and every socket's handle lies below
        the next one the model draws. */
    ghost predicate Valid()
      reads this
    {
      && WellFormed(Snapshot())
      && (forall h :: h in sockets ==> h < nextHandle)
    }

    /** The sleep the loop selects before its next tick. */
    function CurrentSleep(): (r: Sleep)
      reads this
      ensures r == Forever <==> nextPoll.None? && portClientHandleMap == map[]
      ensures r == Immediately <==> nextPoll.None? && portClientHandleMap != map[]
      ensures nextPoll.Some? ==> r == Until(nextPoll.value)
    {
      SleepFor(nextPoll, |portClientHandleMap| != 0)
    }

    /** The loop before its first event: one listening server socket per
        forward (not kept here; they only take the first handles), empty
        tables, poll at once. */
    constructor (iface: TcpVirtualInterface)
      ensures Valid()
      ensures sourcePeerIp == iface.sourcePeerIp
      ensures portClientHandleMap == map[] && sendQueue == map[] && sockets == map[]
      ensures nextHandle == |iface.portForwards|
      ensures nextPoll == None && emitted == []
    {
      sourcePeerIp := iface.sourcePeerIp;
      portClientHandleMap := map[];
      sendQueue := map[];
      sockets := map[];
      nextHandle := |iface.portForwards|;
      nextPoll := None;
      emitted := [];
    }

    /** `ClientConnectionInitiated`: add a client socket connecting from the
        virtual port to the forward's destination, map the port to it and
        give the port an empty queue. A port already mapped is re-mapped. */
    method ClientConnectionInitiated(forward: PortForwardConfig, port: VirtualPort)
      requires Valid()
      modifies this
      ensures Valid()
      ensures old(nextHandle) !in old(sockets) && nextHandle == old(nextHandle) + 1
      ensures portClientHandleMap == old(portClientHandleMap)[port := old(nextHandle)]
      ensures sendQueue == old(sendQueue)[port := []]
      ensures sockets == old(sockets)[old(nextHandle) :=
                TcpSocket(SocketAddr(sourcePeerIp, port.num), forward.destination, SynSent, false, false, [], false)]
      ensures nextPoll == None && emitted == old(emitted)
      ensures CurrentSleep() == Immediately
    {
      var handle := nextHandle;
      nextHandle := nextHandle + 1;
      sockets := sockets[handle := TcpSocket(SocketAddr(sourcePeerIp, port.num), forward.destination, SynSent, false, false, [], false)];
      portClientHandleMap := portClientHandleMap[port := handle];
      sendQueue := sendQueue[port := []];
      nextPoll := None;
    }

    /** `ClientConnectionDropped`: close the port's socket; an unmapped port
        changes nothing. */
    method ClientConnectionDropped(port: VirtualPort)
      requires Valid()
      modifies this
      ensures Valid()
      ensures port !in old(portClientHandleMap) ==> unchanged(this)
      ensures port in old(portClientHandleMap) ==>
                && sockets == old(sockets)[old(portClientHandleMap)[port] :=
                     Close(old(sockets)[old(portClientHandleMap)[port]])]
                && nextPoll == None
                && CurrentSleep() == Immediately
      ensures portClientHandleMap == old(portClientHandleMap) && sendQueue == old(sendQueue)
      ensures nextHandle == old(nextHandle) && emitted == old(emitted)
    {
      if port in portClientHandleMap {
        var handle := portClientHandleMap[port];
        sockets := sockets[handle := Close(sockets[handle])];
        nextPoll := None;
      }
    }

    /** `LocalData`: append the chunk to the back of the port's queue; a port
        without a queue changes nothing. */
    method LocalData(forward: PortForwardConfig, port: VirtualPort, data: Bytes)
      requires Valid()
      modifies this
      ensures Valid()
      ensures port !in old(sendQueue) ==> unchanged(this)
      ensures port in old(sendQueue) ==>
                && sendQueue == old(sendQueue)[port := old(sendQueue)[port] + [data]]
                && Flatten(sendQueue[port]) == Flatten(old(sendQueue)[port]) + data
                && nextPoll == None
                && CurrentSleep() == Immediately
      ensures portClientHandleMap == old(portClientHandleMap) && sockets == old(sockets)
      ensures nextHandle == old(nextHandle) && emitted == old(emitted)
    {
      if port in sendQueue {
        FlattenAppend(sendQueue[port], data);
        sendQueue := sendQueue[port := sendQueue[port] + [data]];
        nextPoll := None;
      }
    }

    /** `VirtualDeviceFed`: packets for the TCP stack arrived; poll at once. */
    method VirtualDeviceFed(protocol: PortProtocol)
      requires Valid()
      modifies this`nextPoll
      ensures Valid()
      ensures nextPoll == if protocol == Tcp then None else old(nextPoll)
    {
      if protocol == Tcp {
        nextPoll := None;
      }
    }

    /** One bus event, dispatched to its arm; every other event is ignored. */
    method HandleEvent(e: Event)
      requires Valid()
      modifies this
      ensures Valid()
      ensures old(portClientHandleMap).Keys <= portClientHandleMap.Keys
      ensures e.RemoteData? || e.Unrelated? || e == Event.VirtualDeviceFed(Udp) ==> unchanged(this)
      ensures (e.ClientConnectionDropped? || e.LocalData?) && e.port !in old(portClientHandleMap) ==> unchanged(this)
      ensures e.ClientConnectionInitiated? ==>
                && old(nextHandle) !in old(sockets) && nextHandle == old(nextHandle) + 1
                && portClientHandleMap == old(portClientHandleMap)[e.port := old(nextHandle)]
                && sendQueue == old(sendQueue)[e.port := []]
                && sockets == old(sockets)[old(nextHandle) :=
                     TcpSocket(SocketAddr(sourcePeerIp, e.port.num), e.forward.destination, SynSent, false, false, [], false)]
                && nextPoll == None
      ensures e.ClientConnectionDropped? && e.port in old(portClientHandleMap) ==>
                && portClientHandleMap == old(portClientHandleMap) && sendQueue == old(sendQueue)
                && sockets == old(sockets)[old(portClientHandleMap)[e.port] :=
                     Close(old(sockets)[old(portClientHandleMap)[e.port]])]
                && nextHandle == old(nextHandle) && nextPoll == None
      ensures e.LocalData? && e.port in old(portClientHandleMap) ==>
                && portClientHandleMap == old(portClientHandleMap) && sockets == old(sockets)
                && sendQueue == old(sendQueue)[e.port := old(sendQueue)[e.port] + [e.data]]
                && nextHandle == old(nextHandle) && nextPoll == None
      ensures e == Event.VirtualDeviceFed(Tcp) ==>
                && portClientHandleMap == old(portClientHandleMap) && sendQueue == old(sendQueue)
                && sockets == old(sockets) && nextHandle == old(nextHandle) && nextPoll == None
      ensures emitted == old(emitted)
    {
      match e
      case ClientConnectionInitiated(forward, port) => ClientConnectionInitiated(forward, port);
      case ClientConnectionDropped(port) => ClientConnectionDropped(port);
      case LocalData(forward, port, data) => LocalData(forward, port, data);
      case VirtualDeviceFed(protocol) => VirtualDeviceFed(protocol);
      case RemoteData(_, _) =>
      case Unrelated =>
    }

    /** The `retain` closure on one port. */
    method SweepPort(port: VirtualPort)
      requires Valid()
      modifies this`portClientHandleMap, this`sendQueue, this`sockets, this`emitted
      ensures Valid()
      ensures Snapshot() == SweepOne(old(Snapshot()), port)
    {
      if port in portClientHandleMap {
        var handle := portClientHandleMap[port];
        if sockets[handle].state == Closed {
          emitted := emitted + [Event.ClientConnectionDropped(port)];
          sendQueue := sendQueue - {port};
          sockets := sockets - {handle};
          portClientHandleMap := portClientHandleMap - {port};
        }
      }
    }

    /** The first phase of a tick (`retain`): drop every port whose socket is
        `Closed` from both tables, remove its socket and report it, visiting
        the ports in `order`. */
    method Sweep(order: seq<VirtualPort>)
      requires Valid()
      requires Enumerates(order, portClientHandleMap.Keys)
      modifies this`portClientHandleMap, this`sendQueue, this`sockets, this`emitted
      ensures Valid()
      ensures Snapshot() == SweepAll(old(Snapshot()), order)
      ensures Snapshot() == Removed(old(Snapshot()), ClosedPorts(old(portClientHandleMap), old(sockets)),
                                    DropEvents(order, ClosedPorts(old(portClientHandleMap), old(sockets))))
      ensures |emitted| == |old(emitted)| + |ClosedPorts(old(portClientHandleMap), old(sockets))|
    {
      ghost var t0 := Snapshot();
      var i := 0;
      while i < |order|
        invariant 0 <= i <= |order|
        invariant Valid()
        invariant Snapshot() == SweepAll(t0, order[..i])
      {
        SweepAllPrefix(t0, order, i);
        SweepPort(order[i]);
        i := i + 1;
      }
      assert order[..|order|] == order;
      var closed := ClosedPorts(t0.handles, t0.sockets);
      SweepAllSpec(t0, order);
      DropEventsCount(order, closed);
      assert closed * Elements(order) == closed;
    }

    /** The stack processes packets (`iface.poll`): any socket may change its
        state and what it can do; nothing the loop keeps changes. */
    method InterfacePoll(status: map<SocketHandle, SocketStatus>)
      requires Valid()
      modifies this`sockets
      ensures Valid()
      ensures sockets == PollSockets(old(sockets), status)
    {
      sockets := PollSockets(sockets, status);
    }

    /** The send half of the loop body on one port. */
    method SendStep(port: VirtualPort, outcome: SendOutcome)
      requires Valid()
      requires port in portClientHandleMap
      modifies this`sendQueue, this`sockets
      ensures Valid()
      ensures sendQueue == old(sendQueue)[port :=
                TcpSend(old(sendQueue)[port], old(sockets)[portClientHandleMap[port]], outcome).queue]
      ensures sockets == old(sockets)[portClientHandleMap[port] :=
                TcpSend(old(sendQueue)[port], old(sockets)[portClientHandleMap[port]], outcome).socket]
    {
      var handle := portClientHandleMap[port];
      var socket := sockets[handle];
      var queue := sendQueue[port];
      if socket.canSend {
        if queue != [] {
          var chunk := queue[0];
          queue := queue[1..];
          match outcome {
            case Accepted(sent) =>
              if sent < |chunk| {
                socket := socket.(accepted := socket.accepted + chunk[..sent]);
                queue := [chunk[sent..]] + queue;
              } else {
                socket := socket.(accepted := socket.accepted + chunk);
              }
            case SendFailed =>
          }
        } else if socket.state == CloseWait {
          socket := Close(socket);
        }
      }
      sendQueue := sendQueue[port := queue];
      sockets := sockets[handle := socket];
    }

    /** The receive half of the loop body: forward non-empty data. */
    method RecvStep(port: VirtualPort, outcome: RecvOutcome)
      requires Valid()
      requires port in portClientHandleMap
      modifies this`emitted
      ensures emitted == old(emitted) + RecvEvent(port, sockets[portClientHandleMap[port]], outcome)
    {
      var socket := sockets[portClientHandleMap[port]];
      if socket.canRecv {
        match outcome {
          case Received(data) =>
            if data != [] {
              emitted := emitted + [Event.RemoteData(port, data)];
            }
          case RecvFailed =>
        }
      }
    }

    /** The loop body on one port: the send step, then the receive step. */
    method ServicePort(port: VirtualPort, sends: map<VirtualPort, SendOutcome>, recvs: map<VirtualPort, RecvOutcome>)
      requires Valid()
      modifies this`sendQueue, this`sockets, this`emitted
      ensures Valid()
      ensures Snapshot() == ServiceOne(old(Snapshot()), port, sends, recvs)
    {
      if port in portClientHandleMap && port in sends && port in recvs {
        SendStep(port, sends[port]);
        RecvStep(port, recvs[port]);
      }
    }

    /** The second phase of a tick: the send and receive step on every
        mapped port, in the iteration order `order`. */
    method ServiceSockets(order: seq<VirtualPort>, sends: map<VirtualPort, SendOutcome>,
                          recvs: map<VirtualPort, RecvOutcome>)
      requires Valid()
      requires Enumerates(order, portClientHandleMap.Keys)
      requires forall p :: p in portClientHandleMap ==> p in sends && p in recvs
      modifies this`sendQueue, this`sockets, this`emitted
      ensures Valid()
      ensures Snapshot() == ServiceAll(old(Snapshot()), order, sends, recvs)
    {
      ghost var t0 := Snapshot();
      var i := 0;
      while i < |order|
        invariant 0 <= i <= |order|
        invariant Valid()
        invariant Snapshot() == ServiceAll(t0, order[..i], sends, recvs)
      {
        ServiceAllPrefix(t0, order, i, sends, recvs);
        ServicePort(order[i], sends, recvs);
        i := i + 1;
      }
      assert order[..|order|] == order;
    }

    /** The last phase of a tick: take the stack's requested delay as the
        next deadline. */
    method ScheduleNextPoll(delay: Option<nat>, now: Instant)
      requires Valid()
      modifies this`nextPoll
      ensures Valid()
      ensures nextPoll == NextPollAfter(delay, now)
    {
      nextPoll := NextPollAfter(delay, now);
    }

    /** A whole tick: sweep, let the stack process packets, service every
        remaining port, schedule the next tick. */
    method PollTick(sweepOrder: seq<VirtualPort>, status: map<SocketHandle, SocketStatus>,
                    serviceOrder: seq<VirtualPort>, sends: map<VirtualPort, SendOutcome>,
                    recvs: map<VirtualPort, RecvOutcome>, delay: Option<nat>, now: Instant)
      requires Valid()
      requires Enumerates(sweepOrder, portClientHandleMap.Keys)
      requires Enumerates(serviceOrder, portClientHandleMap.Keys - ClosedPorts(portClientHandleMap, sockets))
      requires forall p :: p in portClientHandleMap ==> p in sends && p in recvs
      modifies this`portClientHandleMap, this`sendQueue, this`sockets, this`emitted, this`nextPoll
      ensures Valid()
      ensures Snapshot() == Tick(old(Snapshot()), sweepOrder, status, serviceOrder, sends, recvs)
      ensures nextPoll == NextPollAfter(delay, now)
    {
      ghost var t0 := Snapshot();
      Sweep(sweepOrder);
      ghost var swept := Snapshot();
      assert swept == SweepAll(t0, sweepOrder);
      InterfacePoll(status);
      ghost var polled := Snapshot();
      assert polled == swept.(sockets := PollSockets(swept.sockets, status));
      assert Tick(t0, sweepOrder, status, serviceOrder, sends, recvs) == ServiceAll(polled, serviceOrder, sends, recvs);
      ServiceSockets(serviceOrder, sends, recvs);
      ScheduleNextPoll(delay, now);
    }
  }
}
