/** Sockets and their identity: src/threatlens/core/models/network.py. */
module NetworkModels {
  import opened Collections
  import opened ProcessModels

  datatype TransportProtocol = TCP | UDP

  datatype Direction = OUTBOUND | INBOUND | LISTENING | BOUND | UNKNOWN_DIRECTION

  datatype Attribution = ATTRIBUTED | KERNEL | UNATTRIBUTED | PID_REUSE_SUSPECTED

  datatype ConnectionKey = ConnectionKey(
    protocol: TransportProtocol,
    localAddress: string,
    localPort: nat,
    remoteAddress: string,
    remotePort: nat,
    pid: nat,
    created: int)

  datatype NetworkConnection = NetworkConnection(
    protocol: TransportProtocol,
    localAddress: string,
    localPort: nat,
    remoteAddress: Option<string>,
    remotePort: Option<nat>,
    direction: Direction,
    pid: nat,
    createdAt: Option<Time>)
  {
    /** Endpoints, owner and socket creation time; state and direction are not part of the identity. */
    function Key(): ConnectionKey {
      ConnectionKey(protocol, localAddress, localPort,
                    if remoteAddress.None? || remoteAddress.value == "" then "-" else remoteAddress.value,
                    if remotePort.None? then 0 else remotePort.value,
                    pid,
                    if createdAt.None? then 0 else Millis(createdAt.value))
    }

    predicate IsListener() {
      direction == LISTENING || direction == BOUND
    }
  }

  /**
   * Two records are the same socket exactly when protocol, local endpoint, remote endpoint, PID and the
   * millisecond of creation agree. A missing or empty remote address counts as "-", a missing port or
   * time as 0.
   */
  lemma SameSocketExactlyWhen(c: NetworkConnection, d: NetworkConnection)
    ensures c.Key() == d.Key() <==>
            var a := if c.remoteAddress in {None, Some("")} then Some("-") else c.remoteAddress;
            var b := if d.remoteAddress in {None, Some("")} then Some("-") else d.remoteAddress;
            var s := if c.createdAt.None? then 0 else c.createdAt.value;
            var t := if d.createdAt.None? then 0 else d.createdAt.value;
            && c.protocol == d.protocol && c.pid == d.pid
            && c.localAddress == d.localAddress && c.localPort == d.localPort
            && a == b
            && (if c.remotePort.None? then 0 else c.remotePort.value)
               == (if d.remotePort.None? then 0 else d.remotePort.value)
            && exists m :: InMillisecond(s, m) && InMillisecond(t, m)
  {
    var s := if c.createdAt.None? then 0 else c.createdAt.value;
    var t := if d.createdAt.None? then 0 else d.createdAt.value;
    MillisecondIsUnique(s, c.Key().created);
    MillisecondIsUnique(t, c.Key().created);
  }

  /** A socket joined to the process instance that owns it. */
  datatype CorrelatedConnection = CorrelatedConnection(
    connection: NetworkConnection,
    attribution: Attribution,
    processKey: Option<ProcessKey>,
    exe: Option<string>)
}
