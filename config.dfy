/** Port-forward configuration as the virtual interfaces receive it: addresses,
    protocols and the forward records, plus the protocol filter both
    interfaces apply when they are constructed. */
module Config {

  /** An IP address: the loop only compares and collects them. */
  datatype IpAddr = V4(bits4: bv32) | V6(bits6: bv128)

  type Port = x: int | 0 <= x < 0x1_0000

  datatype SocketAddr = SocketAddr(ip: IpAddr, port: Port)

  datatype PortProtocol = Tcp | Udp

  /** One configured forward: traffic from `source` is carried to `destination`. */
  datatype PortForwardConfig = PortForwardConfig(
    source: SocketAddr,
    destination: SocketAddr,
    protocol: PortProtocol)

  /** The forwards of `fs` that use protocol `p`, in their original order
      (the `into_iter().filter(..).collect()` of both constructors). */
  function FilterProtocol(fs: seq<PortForwardConfig>, p: PortProtocol): (r: seq<PortForwardConfig>)
    ensures forall f :: f in r <==> f in fs && f.protocol == p
    ensures |r| <= |fs|
    ensures (forall f :: f in fs ==> f.protocol == p) ==> r == fs
  {
    if fs == [] then []
    else if fs[0].protocol == p then [fs[0]] + FilterProtocol(fs[1..], p)
    else FilterProtocol(fs[1..], p)
  }

  /** Filtering a concatenation filters each part and keeps them in order:
      the filter never reorders the forwards it keeps. */
  lemma {:induction false} FilterAppend(a: seq<PortForwardConfig>, b: seq<PortForwardConfig>, p: PortProtocol)
    ensures FilterProtocol(a + b, p) == FilterProtocol(a, p) + FilterProtocol(b, p)
  {
    if a == [] {
      assert a + b == b;
    } else {
      assert (a + b)[0] == a[0];
      assert (a + b)[1..] == a[1..] + b;
      FilterAppend(a[1..], b, p);
    }
  }

  /** Every forward is kept by exactly one of the two filters, so the TCP and
      the UDP interface between them see every configured forward once. */
  lemma {:induction false} FilterPartition(fs: seq<PortForwardConfig>)
    ensures |FilterProtocol(fs, Tcp)| + |FilterProtocol(fs, Udp)| == |fs|
  {
    if fs != [] {
      FilterPartition(fs[1..]);
    }
  }
}
