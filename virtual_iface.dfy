/** What the TCP and UDP virtual interfaces share: the addresses the virtual
    stack answers on, socket handles, and how the poll loop chooses when to
    wake up next. */
module VirtualIface {
  import opened Config
  import opened Events

  datatype Option<T> = None | Some(value: T)

  /** The handle smoltcp returns from `add_socket`. smoltcp may hand out the
      slot of a removed socket again; the model draws a fresh handle instead,
      which is the same up to renaming, since no table still maps a freed one. */
  type SocketHandle = nat

  /** A point in time, in milliseconds. */
  type Instant = nat

  datatype IpCidr = IpCidr(addr: IpAddr, prefixLen: nat)

  /** The destination addresses of a list of forwards. */
  function DestinationIps(fs: seq<PortForwardConfig>): set<IpAddr>
  {
    set f | f in fs :: f.destination.ip
  }

  /** The interface addresses of a virtual stack: the source peer address and
      every forward's destination address, each once, each as a /32. The set
      is filled in a loop and then turned into a list. */
  method Addresses(sourcePeerIp: IpAddr, forwards: seq<PortForwardConfig>) returns (r: seq<IpCidr>)
    ensures forall c :: c in r <==> c.prefixLen == 32 && (c.addr == sourcePeerIp || c.addr in DestinationIps(forwards))
    ensures forall i, j :: 0 <= i < j < |r| ==> r[i] != r[j]
  {
    var addresses: set<IpAddr> := {sourcePeerIp};
    for i := 0 to |forwards|
      invariant addresses == {sourcePeerIp} + DestinationIps(forwards[..i])
    {
      assert forwards[..i + 1] == forwards[..i] + [forwards[i]];
      addresses := addresses + {forwards[i].destination.ip};
    }
    assert forwards[..|forwards|] == forwards;
    r := [];
    var rest := addresses;
    while rest != {}
      invariant rest <= addresses
      invariant forall c :: c in r <==> c.prefixLen == 32 && c.addr in addresses - rest
      invariant forall i, j :: 0 <= i < j < |r| ==> r[i] != r[j]
      decreases rest
    {
      var a :| a in rest;
      r := r + [IpCidr(a, 32)];
      rest := rest - {a};
    }
  }

  /** The answer of a socket's `recv`: the bytes it drained, or an error. */
  datatype RecvOutcome = Received(data: Bytes) | RecvFailed

  /** `order` lists every key of a table exactly once: the order in which a
      `HashMap` happens to iterate over it, which the program does not fix. */
  ghost predicate Enumerates<K(!new)>(order: seq<K>, keys: set<K>)
  {
    && (forall i, j :: 0 <= i < j < |order| ==> order[i] != order[j])
    && (forall k :: k in order <==> k in keys)
  }

  /** The keys a list visits. */
  function Elements<K>(order: seq<K>): set<K>
  {
    set k | k in order
  }

  /** Splitting a list that visits each key once into its last key and the
      rest: the rest visits each key once and does not visit the last one. */
  lemma SplitLast<K>(order: seq<K>)
    requires order != []
    requires forall i, j :: 0 <= i < j < |order| ==> order[i] != order[j]
    ensures var init, last := order[..|order| - 1], order[|order| - 1];
      && (forall i, j :: 0 <= i < j < |init| ==> init[i] != init[j])
      && last !in Elements(init)
      && Elements(order) == Elements(init) + {last}
      && (forall k :: k in init ==> k in order)
  {
    var init, last := order[..|order| - 1], order[|order| - 1];
    assert order == init + [last];
    assert forall k :: 0 <= k < |init| ==> init[k] == order[k] != last;
  }

  /** A list that visits each key once is as long as the set of its keys. */
  lemma {:induction false} DistinctCount<K>(order: seq<K>)
    requires forall i, j :: 0 <= i < j < |order| ==> order[i] != order[j]
    ensures |Elements(order)| == |order|
  {
    if order == [] {
      assert Elements(order) == {};
    } else {
      SplitLast(order);
      DistinctCount(order[..|order| - 1]);
    }
  }

  /** An iteration order of a table has one entry per key. */
  lemma EnumeratesCount<K(!new)>(order: seq<K>, keys: set<K>)
    requires Enumerates(order, keys)
    ensures |order| == |keys|
  {
    DistinctCount(order);
    assert Elements(order) == keys;
  }

  /** How long the poll loop sleeps before its next tick. */
  datatype Sleep = Forever | Immediately | Until(deadline: Instant)

  /** The sleep the loop selects from its pending deadline and whether it has
      anything to poll for (TCP: a mapped client socket; UDP: the wake flag). */
  function SleepFor(nextPoll: Option<Instant>, pending: bool): (r: Sleep)
    ensures r == Forever <==> nextPoll.None? && !pending
    ensures r == Immediately <==> nextPoll.None? && pending
    ensures r.Until? <==> nextPoll.Some?
    ensures r.Until? ==> r.deadline == nextPoll.value
  {
    match nextPoll
    case None => if pending then Immediately else Forever
    case Some(until) => Until(until)
  }

  /** The deadline of the next poll, from the delay the stack asks for
      (in microseconds) at time `now`: no delay and a zero delay both give
      no deadline; otherwise the delay is cut to whole milliseconds. */
  function NextPollAfter(delay: Option<nat>, now: Instant): (r: Option<Instant>)
    ensures r.None? <==> delay.None? || delay.value == 0
    ensures r.Some? ==> now <= r.value && r.value * 1000 <= now * 1000 + delay.value < r.value * 1000 + 1000
  {
    match delay
    case None => None
    case Some(d) => if d == 0 then None else Some(now + d / 1000)
  }
}
