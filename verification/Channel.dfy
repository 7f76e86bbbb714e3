/** One end of a UDP channel: the glue that gates the two stream halves by the connection phase. */
module Channel {
  import opened Protocol
  import C = Connecting
  import S = Sending
  import R = Receiving

  /** A packet as its receiver reads it: the sender's pin and the sections of the body. */
  datatype Packet = Packet(pin: nat, sections: seq<Section>)

  /** A call turned away before it reached a component. */
  datatype Declined = Declined(id: nat, code: Code)

  datatype Node = Node(conn: C.Connector, ost: S.Sender, ist: R.Receiver, declined: seq<Declined>)

  const PACKET_HEADER: nat := 16

  function InitNode(cfg: Config): Node {
    Node(C.InitConnector(), S.InitSender(), R.InitReceiver(cfg), [])
  }

  /** What the operations need of a node; it holds initially and each of them keeps it. */
  ghost predicate NodeOk(n: Node, cfg: Config) {
    && C.JobsOk(n.conn)
    && R.FillsFit(n.ist)
    && S.Sound(n.ost, cfg)
  }

  predicate Streaming(s: C.Status) {
    s == C.Linked || s == C.Accepting || s == C.Connecting
  }

  predicate Leaving(s: C.Status) {
    s == C.Tearing || s == C.Shutting
  }

  function AbortStreams(n: Node, code: Code): Node {
    n.(ist := R.Error(n.ist, code), ost := S.Error(n.ost, code))
  }

  /** `mistake`, also run by `close`. */
  function Mistake(n: Node, code: Code): Node {
    AbortStreams(n.(conn := C.Error(n.conn, code)), code)
  }

  /** `feed`: the streams hear a packet before the connector does. */
  function Feed(n: Node, p: Packet, now: nat, cfg: Config): Node
    requires NodeOk(n, cfg)
  {
    if !C.Admits(n.conn, p.pin) then n
    else
      var n1 := if Streaming(n.conn.status) then
                  n.(ist := R.Parse(n.ist, p.sections, cfg), ost := S.Parse(n.ost, p.sections))
                else n;
      var n2 := n1.(conn := C.Parse(n1.conn, p.pin, p.sections, now, cfg));
      if Leaving(n2.conn.status) then AbortStreams(n2, ConnectionAborted) else n2
  }

  /**
   * The result of `produce`: an empty section list means that nothing is sent. The body is left open when the sender's
   * pass returned early after repeating a fragment; an early return before that leaves the stub of the pass before it.
   */
  datatype Produced = Produced(node: Node, sections: seq<Section>, leftOpen: bool)

  function Produce(n: Node, now: nat, repeat: nat, cfg: Config): Produced
    requires NodeOk(n, cfg)
  {
    if n.conn.status == C.Finished then Produced(AbortStreams(n, ConnectionAborted), [], false)
    else
      var room := if cfg.packetSize >= PACKET_HEADER then cfg.packetSize - PACKET_HEADER else 0;
      var b1 := C.Imbue(n.conn, room, now, repeat, cfg);
      var n1 := n.(conn := b1.connector);
      if b1.connector.status == C.Linked || b1.connector.status == C.Connecting then
        var b2 := R.Imbue(n.ist, b1.room, now, repeat);
        var b3 := S.Imbue(n.ost, b2.room, now, repeat, cfg);
        Produced(n1.(ist := b2.receiver, ost := b3.sender), b1.sections + b2.sections + b3.sections,
                 !b3.ok && b3.sections != [])
      else
        Produced(n1, b1.sections, false)
  }

  /** How `read` and `write` turn a caller away outside the linked phase. */
  function TurnAway(s: C.Status): Code {
    if s.Rank() <= C.Status.Initial.Rank() then NotConnected
    else if s.Rank() <= C.Status.Connecting.Rank() then TryAgain
    else BadDescriptor
  }

  function Decline(n: Node, id: nat, code: Code): Node {
    n.(declined := n.declined + [Declined(id, code)])
  }

  function Read(n: Node, size: nat, id: nat, cfg: Config): Node
    requires NodeOk(n, cfg)
  {
    if n.conn.status != C.Linked then Decline(n, id, TurnAway(n.conn.status))
    else n.(ist := R.Append(n.ist, size, id))
  }

  function Write(n: Node, buffer: seq<byte>, id: nat, cfg: Config): Node
    requires NodeOk(n, cfg)
  {
    if n.conn.status != C.Linked then Decline(n, id, TurnAway(n.conn.status))
    else n.(ost := S.Append(n.ost, buffer, id, cfg))
  }

  function Connect(n: Node, id: nat, pin: nat, now: nat, cfg: Config): Node {
    if n.conn.status != C.Initial then Decline(n, id, NoPermission)
    else n.(conn := C.Connect(n.conn, id, pin, now, cfg))
  }

  function Accept(n: Node, id: nat, pin: nat, now: nat, cfg: Config): Node {
    if n.conn.status != C.Initial then Decline(n, id, NoPermission)
    else n.(conn := C.Accept(n.conn, id, pin, now, cfg))
  }

  function Shutdown(n: Node, id: nat, now: nat, cfg: Config): Node {
    n.(conn := C.Shutdown(n.conn, id, now, cfg))
  }

  function Writable(n: Node, cfg: Config): nat
    requires NodeOk(n, cfg)
  {
    if n.conn.status == C.Linked then S.Writable(n.ost, cfg) else 0
  }

  function Readable(n: Node, cfg: Config): nat
    requires NodeOk(n, cfg)
  {
    if n.conn.status == C.Linked then R.Readable(n.ist) else 0
  }
}

/**
 * Two ends of a UDP channel and the network between them. The network keeps every packet ever sent and
 * may deliver any of them any number of times in any order, or never.
 */
module ChannelRuns {
  import opened Protocol
  import opened Channel
  import opened Handshake
  import C = Connecting
  import S = Sending
  import R = Receiving
  import CL = ConnectorLaws
  import L = StreamLink

  /** One end with what the run remembers of it: `calls` and `dropped` count connector handlers. */
  datatype Side = Side(
    node: Node,
    trail: Trail,
    sent: set<Packet>,
    calls: multiset<nat>,
    dropped: multiset<nat>)

  /** `ab` is the history of the direction from `a` to `b`, `ba` that of the other one. */
  datatype System = System(a: Side, b: Side, ab: L.History, ba: L.History)

  /** What may happen at one end. */
  datatype Event =
    | CallConnect(id: nat, pin: nat, now: nat)
    | CallAccept(id: nat, pin: nat, now: nat)
    | CallShutdown(id: nat, now: nat)
    | CallWrite(buffer: seq<byte>, id: nat)
    | CallRead(size: nat, id: nat)
    | Deliver(packet: Packet, now: nat)
    | Emit(now: nat, repeat: nat, stale: seq<Section>)
    | Close(code: Code)

  ghost predicate Ready(s: System, cfg: Config) {
    NodeOk(s.a.node, cfg)
  }

  /** One event at end `a`. */
  ghost function StepA(s: System, e: Event, cfg: Config): System
    requires Ready(s, cfg)
  {
    var n := s.a.node;
    match e
    case CallConnect(id, pin, now) =>
      if n.conn.status != C.Initial then s.(a := s.a.(node := Channel.Connect(n, id, pin, now, cfg)))
      else s.(a := s.a.(node := Channel.Connect(n, id, pin, now, cfg), trail := s.a.trail.(pin := pin),
                        calls := s.a.calls + multiset{id}))
    case CallAccept(id, pin, now) =>
      if n.conn.status != C.Initial then s.(a := s.a.(node := Channel.Accept(n, id, pin, now, cfg)))
      else s.(a := s.a.(node := Channel.Accept(n, id, pin, now, cfg), trail := s.a.trail.(pin := pin),
                        calls := s.a.calls + multiset{id}))
    case CallShutdown(id, now) =>
      var m := Channel.Shutdown(n, id, now, cfg);
      s.(a := s.a.(node := m, trail := Track(s.a.trail, m.conn),
                   calls := s.a.calls + multiset{id}, dropped := s.a.dropped + CL.Replaced(n.conn)))
    case CallWrite(buffer, id) =>
      s.(a := s.a.(node := Channel.Write(n, buffer, id, cfg)),
         ab := if n.conn.status == C.Linked then L.AfterWrite(n.ost, s.ab, buffer, id, cfg) else s.ab)
    case CallRead(size, id) =>
      s.(a := s.a.(node := Channel.Read(n, size, id, cfg)))
    case Deliver(p, now) => Delivery(s, p, now, cfg)
    case Emit(now, repeat, stale) => Emission(s, now, repeat, stale, cfg)
    case Close(code) =>
      Shut(s.(a := s.a.(node := Channel.Mistake(n, code))))
  }

  /** Both halves of end `a` are reset. */
  ghost function Shut(s: System): System {
    s.(ab := s.ab.(senderOpen := false), ba := s.ba.(receiverOpen := false))
  }

  ghost function Delivery(s: System, p: Packet, now: nat, cfg: Config): System
    requires Ready(s, cfg)
  {
    var n := s.a.node;
    var m := Channel.Feed(n, p, now, cfg);
    if !C.Admits(n.conn, p.pin) then s
    else
      var t := TrackAll(s.a.trail, n.conn.(seen := At(now)), p.pin, p.sections, now, cfg);
      var s1 := s.(a := s.a.(node := m, trail := t),
                   ba := if Streaming(n.conn.status) then s.ba.(got := L.HeardAll(s.ba.got, p.sections)) else s.ba);
      if Leaving(m.conn.status) then Shut(s1) else s1
  }

  /** A packet without sections is not sent. */
  ghost function Sent(sent: set<Packet>, pin: nat, sections: seq<Section>): set<Packet> {
    if sections == [] then sent else sent + {Packet(pin, sections)}
  }

  ghost function Production(s: System, now: nat, repeat: nat, cfg: Config): System
    requires Ready(s, cfg)
  {
    var n := s.a.node;
    var r := Channel.Produce(n, now, repeat, cfg);
    if n.conn.status == C.Finished then Shut(s.(a := s.a.(node := r.node)))
    else
      var room := if cfg.packetSize >= PACKET_HEADER then cfg.packetSize - PACKET_HEADER else 0;
      var t := if C.TimedOut(n.conn, now, cfg) then s.a.trail else TrackJobs(s.a.trail, n.conn, room, now, repeat);
      s.(a := s.a.(node := r.node, trail := t, sent := Sent(s.a.sent, n.conn.local, r.sections)),
         ab := s.ab.(forth := Join(s.ab.forth, r.sections),
                     cut := if s.ab.senderOpen then r.node.ost.head else s.ab.cut),
         ba := s.ba.(back := Join(s.ba.back, r.sections)))
  }

  /**
   * The packet of a production. When the body is left open, `stale` is what the peer will read behind it: the sections
   * that stand in the bytes the buffer still holds from before.
   */
  ghost function Emission(s: System, now: nat, repeat: nat, stale: seq<Section>, cfg: Config): System
    requires Ready(s, cfg)
  {
    var t := Production(s, now, repeat, cfg);
    var r := Channel.Produce(s.a.node, now, repeat, cfg);
    if !r.leftOpen then t
    else t.(a := t.a.(sent := Sent(s.a.sent, s.a.node.conn.local, r.sections + stale)),
            ab := t.ab.(forth := Join(t.ab.forth, stale)),
            ba := t.ba.(back := Join(t.ba.back, stale)))
  }

  /**
   * A section that end `a` could as well have sent on purpose: a fragment it has sent before, an echo or an edge that
   * promises no more than is true, a handshake section that fits its phase.
   */
  ghost predicate Harmless(s: System, x: Section) {
    match x
    case Move(_, _) => x in s.ab.forth
    case EdgeEcho(v) => v <= s.a.node.ost.range
    case MoveEcho(h) => h in s.ba.got
    case Edge(v) => v <= s.a.node.ist.edge
    case Link => s.a.trail.role == Caller
    case LinkEcho => s.a.trail.role == Listener && s.a.trail.linked
    case Tear => s.a.trail.begun
    case TearEcho => s.a.node.conn.status == C.Finished && s.b.trail.begun
    case Ping(_) => true
    case PingEcho(_) => true
  }

  /**
   * The caller connects, the listener accepts, pins are not zero, writes are not empty, packets were sent, an end runs
   * its timer only after `connect` or `accept`, an end is closed with an error, and stale sections behind an open body
   * do no harm.
   */
  ghost predicate Legal(s: System, e: Event, cfg: Config)
    requires Ready(s, cfg)
  {
    match e
    case CallConnect(_, pin, _) => pin != 0 && s.a.trail.role == Caller
    case CallAccept(_, pin, _) => pin != 0 && s.a.trail.role == Listener
    case CallWrite(buffer, _) => buffer != []
    case Deliver(p, _) => p in s.b.sent
    case Emit(now, repeat, stale) =>
      && s.a.node.conn.status != C.Initial
      && (Channel.Produce(s.a.node, now, repeat, cfg).leftOpen ==>
            forall x :: x in stale ==> Harmless(Production(s, now, repeat, cfg), x))
    case Close(code) => code != Success
    case _ => true
  }

  /** The same system seen from the other end. */
  function Swap(s: System): System {
    System(s.b, s.a, s.ba, s.ab)
  }
}
