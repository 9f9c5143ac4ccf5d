/** The bus events the virtual interfaces consume and produce, and the
    virtual port that keys every per-connection table. */
module Events {
  import opened Config

  type Byte = x: int | 0 <= x < 0x100

  type Bytes = seq<Byte>

  /** A port of the virtual stack together with its protocol: the key of
      both tables of a poll loop. */
  datatype VirtualPort = VirtualPort(num: Port, protocol: PortProtocol)

  /** The bus events the two poll loops react to or send. `Unrelated` stands
      for every other kind of bus event, which both loops ignore. */
  datatype Event =
    | ClientConnectionInitiated(forward: PortForwardConfig, port: VirtualPort)
    | ClientConnectionDropped(port: VirtualPort)
    | LocalData(forward: PortForwardConfig, port: VirtualPort, data: Bytes)
    | RemoteData(port: VirtualPort, data: Bytes)
    | VirtualDeviceFed(protocol: PortProtocol)
    | Unrelated
}
