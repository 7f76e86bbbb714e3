/** The invariant of two connected ends, kept by every legal event at either of them. */
module ChannelLaws {
  import opened Protocol
  import Containers
  import opened Channel
  import opened ChannelRuns
  import opened Handshake
  import C = Connecting
  import S = Sending
  import R = Receiving
  import CL = ConnectorLaws
  import SL = SenderLaws
  import RL = ReceiverLaws
  import L = StreamLink

  ghost predicate PacketsKnown(sent: set<Packet>, pin: nat, forth: set<Section>) {
    forall p :: p in sent ==> p.pin == pin && forall x :: x in p.sections ==> x in forth
  }

  /** What is local to one end: xy is the direction it sends on, yx the one it receives on. */
  ghost predicate SideOk(x: Side, xy: L.History, yx: L.History, cfg: Config) {
    && NodeOk(x.node, cfg)
    && x.node.conn.status != C.Neither
    && (x.node.conn.status.Rank() <= 4 ==> xy.senderOpen && yx.receiverOpen)
    && PacketsKnown(x.sent, x.trail.pin, xy.forth)
    && (x.trail.pin == 0 ==> x.sent == {})
    && CL.Book(x.node.conn) + x.dropped == x.calls
    && FlightsFit(x.node.ost.moves, cfg)
  }

  /** Every fragment in flight fits a packet that holds nothing else. */
  ghost predicate FlightsFit(moves: map<nat, S.Flight>, cfg: Config) {
    forall h :: h in moves ==> SizeOf(Move(h, moves[h].data)) <= BodyRoom(cfg)
  }

  ghost predicate SysInv(s: System, cfg: Config) {
    && SideOk(s.a, s.ab, s.ba, cfg)
    && SideOk(s.b, s.ba, s.ab, cfg)
    && LinksOk(s, cfg)
    && PactOk(s)
  }

  /** The two directions and the handshake, without what is local to an end. */
  ghost predicate LinksOk(s: System, cfg: Config) {
    && s.ab.forth == s.ba.back && s.ba.forth == s.ab.back
    && L.LinkInv(s.a.node.ost, s.b.node.ist, s.ab, cfg)
    && L.LinkInv(s.b.node.ost, s.a.node.ist, s.ba, cfg)
  }

  ghost predicate PactOk(s: System) {
    Pact(s.a.node.conn, s.a.trail, s.b.node.conn, s.b.trail, s.ab.forth, s.ba.forth)
  }

  lemma Symmetric(s: System, cfg: Config)
    requires SysInv(s, cfg)
    ensures SysInv(Swap(s), cfg)
  {
    hide Pact, SideOk, L.LinkInv;
    KnownInv(s.a.node.conn, s.a.trail, s.b.node.conn, s.b.trail, s.ab.forth, s.ba.forth);
  }

  lemma NodeReady(s: System, cfg: Config)
    requires SysInv(s, cfg)
    ensures ChannelRuns.Ready(s, cfg)
  {
    hide Pact, L.LinkInv;
  }

  // ---------------------------------------------------------------- delivery

  lemma SeenPact(c: C.Connector, t: Trail, d: C.Connector, u: Trail, mine: set<Section>, theirs: set<Section>, now: nat)
    requires Pact(c, t, d, u, mine, theirs) && c.status != C.Initial
    ensures Pact(c.(seen := At(now)), t, d, u, mine, theirs)
  {
  }

  /** A connector with a pin has left the initial phase for good. */
  lemma PinnedPhase(c: C.Connector, t: Trail, d: C.Connector, u: Trail, mine: set<Section>, theirs: set<Section>)
    requires Pact(c, t, d, u, mine, theirs) && c.local != 0 && c.status != C.Neither
    ensures CL.Alive(c.status) || c.status == C.Finished
    ensures c.status != C.Initial
  {
  }

  lemma FeedReady(n: Node, p: Packet, now: nat, cfg: Config)
    requires NodeOk(n, cfg)
    ensures R.FillsFit(Feed(n, p, now, cfg).ist)
    ensures S.Sound(Feed(n, p, now, cfg).ost, cfg)
    ensures FlightsFit(n.ost.moves, cfg) ==> FlightsFit(Feed(n, p, now, cfg).ost.moves, cfg)
  {
    SL.ParseSound(n.ost, p.sections, cfg);
    SL.ParseMoves(n.ost, p.sections);
  }

  lemma DeliveryLinks(s: System, p: Packet, now: nat, cfg: Config)
    requires SysInv(s, cfg) && p in s.b.sent && C.Admits(s.a.node.conn, p.pin)
    ensures var t := Delivery(s, p, now, cfg);
            LinksOk(t, cfg)
  {
    hide L.LinkInv, Pact, C.Parse, TrackAll;
    var n := s.a.node;
    var m := Feed(n, p, now, cfg);
    var ost := if Streaming(n.conn.status) then S.Parse(n.ost, p.sections) else n.ost;
    var ist := if Streaming(n.conn.status) then R.Parse(n.ist, p.sections, cfg) else n.ist;
    var ba := if Streaming(n.conn.status) then s.ba.(got := L.HeardAll(s.ba.got, p.sections)) else s.ba;
    if Streaming(n.conn.status) {
      L.SenderHearsAll(n.ost, s.b.node.ist, s.ab, p.sections, cfg);
      L.ReceiverHearsAll(s.b.node.ost, n.ist, s.ba, p.sections, cfg);
    }
    if Leaving(m.conn.status) {
      L.SenderCloses(ost, s.b.node.ist, s.ab, ConnectionAborted, cfg);
      L.ReceiverCloses(s.b.node.ost, ist, ba, ConnectionAborted, cfg);
    }
  }

  lemma DeliveryPact(s: System, p: Packet, now: nat, cfg: Config)
    requires SysInv(s, cfg) && p in s.b.sent && C.Admits(s.a.node.conn, p.pin)
    ensures var t := Delivery(s, p, now, cfg);
            && PactOk(t)
            && s.a.node.conn.status.Rank() <= t.a.node.conn.status.Rank()
            && CL.Book(t.a.node.conn) == CL.Book(s.a.node.conn)
            && C.JobsOk(t.a.node.conn)
            && t.a.trail.pin == s.a.trail.pin
  {
    hide L.LinkInv, Pact, CL.Book, C.ParseAll, C.JobsOk, S.Parse, R.Parse, L.HeardAll, TrackAll;
    var n := s.a.node;
    var c := n.conn.(seen := At(now));
    PinnedPhase(n.conn, s.a.trail, s.b.node.conn, s.b.trail, s.ab.forth, s.ba.forth);
    SeenPact(n.conn, s.a.trail, s.b.node.conn, s.b.trail, s.ab.forth, s.ba.forth, now);
    HearAllPact(c, s.a.trail, s.b.node.conn, s.b.trail, s.ab.forth, s.ba.forth, p.sections, now, cfg);
    CL.ParseAllBook(c, p.pin, p.sections, now, cfg);
    SeenBook(n.conn, now);
    TrackPin(s.a.trail, c, p.pin, p.sections, now, cfg);
    var e := C.ParseAll(c, p.pin, p.sections, now, cfg);
    KnownInv(e, TrackAll(s.a.trail, c, p.pin, p.sections, now, cfg), s.b.node.conn, s.b.trail, s.ab.forth, s.ba.forth);
  }

  lemma SeenBook(c: C.Connector, now: nat)
    ensures CL.Book(c.(seen := At(now))) == CL.Book(c)
  {
  }

  lemma {:induction false} TrackPin(t: Trail, c: C.Connector, pin: nat, secs: seq<Section>, now: nat, cfg: Config)
    ensures TrackAll(t, c, pin, secs, now, cfg).pin == t.pin
    decreases |secs|
  {
    if secs != [] {
      var e := C.ParseSection(c, pin, secs[0], now, cfg);
      TrackPin(TrackSection(t, c, e), e, pin, secs[1..], now, cfg);
    }
  }

  lemma DeliverySides(s: System, p: Packet, now: nat, cfg: Config)
    requires SideOk(s.a, s.ab, s.ba, cfg) && SideOk(s.b, s.ba, s.ab, cfg) && C.Admits(s.a.node.conn, p.pin)
    requires var t := Delivery(s, p, now, cfg);
             && s.a.node.conn.status.Rank() <= t.a.node.conn.status.Rank()
             && CL.Book(t.a.node.conn) == CL.Book(s.a.node.conn)
             && C.JobsOk(t.a.node.conn)
             && t.a.trail.pin == s.a.trail.pin
    ensures var t := Delivery(s, p, now, cfg); SideOk(t.a, t.ab, t.ba, cfg) && SideOk(t.b, t.ba, t.ab, cfg)
  {
    hide CL.Book, C.Parse, TrackAll, R.Parse, S.Parse, L.HeardAll, S.Sound, R.FillsFit, C.JobsOk, PacketsKnown;
    FeedReady(s.a.node, p, now, cfg);
  }

  lemma DeliveryKeeps(s: System, p: Packet, now: nat, cfg: Config)
    requires SysInv(s, cfg) && p in s.b.sent
    ensures SysInv(Delivery(s, p, now, cfg), cfg)
  {
    hide SideOk, LinksOk, PactOk;
    NodeReady(s, cfg);
    if C.Admits(s.a.node.conn, p.pin) {
      DeliveryLinks(s, p, now, cfg);
      DeliveryPact(s, p, now, cfg);
      DeliverySides(s, p, now, cfg);
    }
  }

  // ---------------------------------------------------------------- production

  lemma NoiseForth(o: S.Sender, i: R.Receiver, h: L.History, secs: seq<Section>, cfg: Config)
    requires L.LinkInv(o, i, h, cfg)
    requires forall x :: x in secs ==> !x.Move? && !x.EdgeEcho?
    ensures L.LinkInv(o, i, h.(forth := Join(h.forth, secs)), cfg)
  {
    hide L.LinkInv;
    JoinMembers(h.forth, secs);
    L.ForthGrows(o, i, h, cfg, Join(h.forth, secs));
  }

  lemma NoiseBack(o: S.Sender, i: R.Receiver, h: L.History, secs: seq<Section>, cfg: Config)
    requires L.LinkInv(o, i, h, cfg)
    requires forall x :: x in secs ==> !x.MoveEcho? && !x.Edge?
    ensures L.LinkInv(o, i, h.(back := Join(h.back, secs)), cfg)
  {
    hide L.LinkInv;
    JoinMembers(h.back, secs);
    L.BackGrows(o, i, h, cfg, Join(h.back, secs));
  }

  /** A full packet seen by the direction it carries fragments for. */
  lemma PacketForth(o: S.Sender, i: R.Receiver, h: L.History, cs: seq<Section>, rs: seq<Section>,
                    room: nat, now: nat, repeat: nat, cfg: Config)
    requires L.LinkInv(o, i, h, cfg) && h.senderOpen
    requires forall x :: x in cs ==> !x.Move? && !x.EdgeEcho?
    requires forall x :: x in rs ==> !x.Move? && !x.EdgeEcho?
    ensures o.head <= o.range
    ensures var b := S.Imbue(o, room, now, repeat, cfg);
            L.LinkInv(b.sender, i, h.(forth := Join(h.forth, cs + rs + b.sections), cut := b.sender.head), cfg)
  {
    hide L.LinkInv, S.Imbue;
    NoiseForth(o, i, h, cs + rs, cfg);
    var g := h.(forth := Join(h.forth, cs + rs));
    L.SendKeeps(o, i, g, room, now, repeat, cfg);
    var b := S.Imbue(o, room, now, repeat, cfg);
    JoinAppend(h.forth, cs + rs, b.sections);
    assert L.AfterSend(g, b.sections, b.sender.head) == h.(forth := Join(h.forth, cs + rs + b.sections), cut := b.sender.head);
  }

  /** A full packet seen by the direction it carries echoes and edges for. */
  lemma PacketBack(o: S.Sender, i: R.Receiver, h: L.History, cs: seq<Section>, ss: seq<Section>,
                   room: nat, now: nat, repeat: nat, cfg: Config)
    requires L.LinkInv(o, i, h, cfg) && h.receiverOpen
    requires forall x :: x in cs ==> !x.MoveEcho? && !x.Edge?
    requires forall x :: x in ss ==> !x.MoveEcho? && !x.Edge?
    ensures var b := R.Imbue(i, room, now, repeat);
            L.LinkInv(o, b.receiver, h.(back := Join(h.back, cs + b.sections + ss)), cfg)
  {
    hide L.LinkInv, R.Imbue;
    NoiseBack(o, i, h, cs, cfg);
    var g := h.(back := Join(h.back, cs));
    L.ReplyKeeps(o, i, g, room, now, repeat, cfg);
    var b := R.Imbue(i, room, now, repeat);
    var k := L.AfterReply(g, b.sections);
    NoiseBack(o, b.receiver, k, ss, cfg);
    JoinAppend(h.back, cs, b.sections);
    JoinAppend(h.back, cs + b.sections, ss);
    assert k.(back := Join(k.back, ss)) == h.(back := Join(h.back, cs + b.sections + ss));
  }

  lemma ConnectorSections(c: C.Connector, room: nat, now: nat, repeat: nat, cfg: Config)
    requires C.JobsOk(c)
    ensures forall x :: x in C.Imbue(c, room, now, repeat, cfg).sections ==>
              !x.Move? && !x.MoveEcho? && !x.Edge? && !x.EdgeEcho?
  {
    CL.JobSections(c, room, now, repeat);
  }

  /** The room `produce` offers the connector. */
  function BodyRoom(cfg: Config): nat {
    if cfg.packetSize >= PACKET_HEADER then cfg.packetSize - PACKET_HEADER else 0
  }

  lemma ProductionLinks(s: System, now: nat, repeat: nat, cfg: Config)
    requires LinksOk(s, cfg) && SideOk(s.a, s.ab, s.ba, cfg) && s.a.node.conn.status != C.Finished
    requires s.a.node.conn.status.Rank() <= C.Imbue(s.a.node.conn, BodyRoom(cfg), now, repeat, cfg).connector.status.Rank()
    ensures LinksOk(Production(s, now, repeat, cfg), cfg)
  {
    hide L.LinkInv, CL.Book, PacketsKnown, C.Imbue, S.Imbue, R.Imbue, TrackJobs;
    var n := s.a.node;
    var b1 := C.Imbue(n.conn, BodyRoom(cfg), now, repeat, cfg);
    var t := Production(s, now, repeat, cfg);
    ConnectorSections(n.conn, BodyRoom(cfg), now, repeat, cfg);
    if b1.connector.status == C.Linked || b1.connector.status == C.Connecting {
      var b2 := R.Imbue(n.ist, b1.room, now, repeat);
      var b3 := S.Imbue(n.ost, b2.room, now, repeat, cfg);
      RL.ImbueFrame(n.ist, b1.room, now, repeat);
      SL.ImbueSections(n.ost, b2.room, now, repeat, cfg);
      PacketForth(n.ost, s.b.node.ist, s.ab, b1.sections, b2.sections, b2.room, now, repeat, cfg);
      PacketBack(s.b.node.ost, n.ist, s.ba, b1.sections, b3.sections, b1.room, now, repeat, cfg);
    } else {
      NoiseForth(n.ost, s.b.node.ist, s.ab, b1.sections, cfg);
      NoiseBack(s.b.node.ost, n.ist, s.ba, b1.sections, cfg);
      if s.ab.senderOpen {
        L.HeadWithinCredit(n.ost, s.b.node.ist, s.ab, cfg);
      }
    }
  }

  lemma AlarmPact(c: C.Connector, t: Trail, d: C.Connector, u: Trail, mine: set<Section>, theirs: set<Section>)
    requires Pact(c, t, d, u, mine, theirs) && CL.Alive(c.status)
    ensures Pact(c.(alarms := c.alarms + [Interrupted]), t, d, u, mine, theirs)
    ensures C.JobsOk(c) && C.JobsOk(c.(alarms := c.alarms + [Interrupted])) && t.pin != 0
    ensures CL.ConnectorInv(c)
  {
  }

  lemma ImbuePact(c: C.Connector, t: Trail, d: C.Connector, u: Trail, mine: set<Section>, theirs: set<Section>,
                  room: nat, now: nat, repeat: nat, cfg: Config)
    requires Pact(c, t, d, u, mine, theirs) && CL.Alive(c.status)
    ensures C.JobsOk(c) && t.pin != 0
    ensures var b := C.Imbue(c, room, now, repeat, cfg);
            var t' := if C.TimedOut(c, now, cfg) then t else TrackJobs(t, c, room, now, repeat);
            && Pact(b.connector, t', d, u, Join(mine, b.sections), theirs)
            && c.status.Rank() <= b.connector.status.Rank()
            && CL.Book(b.connector) == CL.Book(c)
            && C.JobsOk(b.connector)
            && t'.pin == t.pin
  {
    hide Pact, CL.Book, C.JobsOk, CL.ConnectorInv;
    AlarmPact(c, t, d, u, mine, theirs);
    CL.ImbueBook(c, room, now, repeat, cfg);
    var b := C.Imbue(c, room, now, repeat, cfg);
    if !C.TimedOut(c, now, cfg) {
      JobsPact(c, t, d, u, mine, theirs, room, now, repeat);
      TrackJobsPin(t, c, room, now, repeat);
      KnownInv(b.connector, TrackJobs(t, c, room, now, repeat), d, u, Join(mine, b.sections), theirs);
    }
  }

  lemma {:induction false} TrackJobsPin(t: Trail, c: C.Connector, room: nat, now: nat, repeat: nat)
    requires C.JobsOk(c)
    ensures TrackJobs(t, c, room, now, repeat).pin == t.pin
    decreases |C.Ready(c, now)|
  {
    if !(room < SECTION_HEADER || C.Ready(c, now) == {}) {
      var k := Containers.MinOf(C.Ready(c, now));
      var x := C.JobSection(c, k, now);
      C.ReadyShrinks(c, k, now, repeat);
      CL.JobsShrink(c, k, now, repeat);
      var e := C.AfterJob(c, k, now, repeat);
      TrackJobsPin(Track(t, e), e, if SizeOf(x) <= room then room - SizeOf(x) else 0, now, repeat);
    }
  }

  /** The stream sections of a packet do not disturb the handshake. */
  lemma ProductionPact(s: System, now: nat, repeat: nat, cfg: Config)
    requires SysInv(s, cfg) && s.a.node.conn.status != C.Finished && CL.Alive(s.a.node.conn.status)
    ensures var t := Production(s, now, repeat, cfg);
            && PactOk(t)
            && s.a.node.conn.status.Rank() <= t.a.node.conn.status.Rank()
            && t.a.node.conn == C.Imbue(s.a.node.conn, BodyRoom(cfg), now, repeat, cfg).connector
            && CL.Book(t.a.node.conn) == CL.Book(s.a.node.conn)
            && C.JobsOk(t.a.node.conn)
            && t.a.trail.pin == s.a.trail.pin != 0
  {
    hide L.LinkInv, CL.Book, PacketsKnown, C.Imbue, S.Imbue, R.Imbue, TrackJobs, Pact;
    var n := s.a.node;
    var room := BodyRoom(cfg);
    var b1 := C.Imbue(n.conn, room, now, repeat, cfg);
    var r := Produce(n, now, repeat, cfg);
    var t' := if C.TimedOut(n.conn, now, cfg) then s.a.trail else TrackJobs(s.a.trail, n.conn, room, now, repeat);
    ImbuePact(n.conn, s.a.trail, s.b.node.conn, s.b.trail, s.ab.forth, s.ba.forth, room, now, repeat, cfg);
    if b1.connector.status == C.Linked || b1.connector.status == C.Connecting {
      var b2 := R.Imbue(n.ist, b1.room, now, repeat);
      var b3 := S.Imbue(n.ost, b2.room, now, repeat, cfg);
      RL.ImbueFrame(n.ist, b1.room, now, repeat);
      SL.ImbueSections(n.ost, b2.room, now, repeat, cfg);
      var more := b2.sections + b3.sections;
      assert r.sections == b1.sections + more;
      JoinAppend(s.ab.forth, b1.sections, more);
      JoinMembers(Join(s.ab.forth, b1.sections), more);
      StreamPact(b1.connector, t', s.b.node.conn, s.b.trail, Join(s.ab.forth, b1.sections), s.ba.forth,
                 Join(s.ab.forth, r.sections));
    }
  }

  lemma ProduceReady(n: Node, now: nat, repeat: nat, cfg: Config)
    requires NodeOk(n, cfg)
    ensures R.FillsFit(Produce(n, now, repeat, cfg).node.ist)
    ensures S.Sound(Produce(n, now, repeat, cfg).node.ost, cfg)
    ensures FlightsFit(n.ost.moves, cfg) ==> FlightsFit(Produce(n, now, repeat, cfg).node.ost.moves, cfg)
  {
    hide C.Imbue, S.Imbue, R.Imbue;
    var b1 := C.Imbue(n.conn, BodyRoom(cfg), now, repeat, cfg);
    var b2 := R.Imbue(n.ist, b1.room, now, repeat);
    RL.ImbueFrame(n.ist, b1.room, now, repeat);
    SL.ImbueSound(n.ost, b2.room, now, repeat, cfg);
    SL.ImbueFits(n.ost, b2.room, now, repeat, cfg);
    RoomShrinks(n.conn, now, repeat, cfg);
  }

  /** What the connector leaves of the room. */
  lemma RoomShrinks(c: C.Connector, now: nat, repeat: nat, cfg: Config)
    requires C.JobsOk(c)
    ensures C.Imbue(c, BodyRoom(cfg), now, repeat, cfg).room <= BodyRoom(cfg)
  {
    JobsRoom(c, BodyRoom(cfg), now, repeat);
  }

  lemma {:induction false} JobsRoom(c: C.Connector, room: nat, now: nat, repeat: nat)
    requires C.JobsOk(c)
    ensures C.RunJobs(c, room, now, repeat).room <= room
    decreases |C.Ready(c, now)|
  {
    hide C.AfterJob;
    if !(room < SECTION_HEADER || C.Ready(c, now) == {}) {
      var k := Containers.MinOf(C.Ready(c, now));
      var x := C.JobSection(c, k, now);
      C.ReadyShrinks(c, k, now, repeat);
      CL.JobsShrink(c, k, now, repeat);
      JobsRoom(C.AfterJob(c, k, now, repeat), if SizeOf(x) <= room then room - SizeOf(x) else 0, now, repeat);
    }
  }

  lemma PacketsGrow(sent: set<Packet>, pin: nat, forth: set<Section>, sections: seq<Section>)
    requires PacketsKnown(sent, pin, forth)
    ensures PacketsKnown(Sent(sent, pin, sections), pin, Join(forth, sections))
  {
    JoinMembers(forth, sections);
  }

  lemma ProductionSides(s: System, now: nat, repeat: nat, cfg: Config)
    requires SideOk(s.a, s.ab, s.ba, cfg) && SideOk(s.b, s.ba, s.ab, cfg)
    requires s.a.node.conn.status != C.Finished && s.a.node.conn.local == s.a.trail.pin
    requires var t := Production(s, now, repeat, cfg);
             && s.a.node.conn.status.Rank() <= t.a.node.conn.status.Rank()
             && CL.Book(t.a.node.conn) == CL.Book(s.a.node.conn)
             && C.JobsOk(t.a.node.conn)
             && t.a.trail.pin == s.a.trail.pin != 0
    ensures var t := Production(s, now, repeat, cfg); SideOk(t.a, t.ab, t.ba, cfg) && SideOk(t.b, t.ba, t.ab, cfg)
  {
    ProduceReady(s.a.node, now, repeat, cfg);
    var r := Produce(s.a.node, now, repeat, cfg);
    PacketsGrow(s.a.sent, s.a.trail.pin, s.ab.forth, r.sections);
    hide CL.Book, C.Imbue, R.Imbue, S.Imbue, TrackJobs, S.Sound, R.FillsFit, C.JobsOk, PacketsKnown, Sent, Join;
  }

  /** Every packet carries the sender's own pin. */
  lemma OwnPin(s: System, cfg: Config)
    requires SysInv(s, cfg)
    ensures CL.Alive(s.a.node.conn.status) ==> s.a.node.conn.local == s.a.trail.pin != 0
  {
    hide L.LinkInv, SideOk;
  }

  lemma ProductionKeeps(s: System, now: nat, repeat: nat, cfg: Config)
    requires SysInv(s, cfg) && CL.Alive(s.a.node.conn.status)
    ensures SysInv(Production(s, now, repeat, cfg), cfg)
  {
    hide SideOk, LinksOk, PactOk, Production;
    NodeReady(s, cfg);
    OwnPin(s, cfg);
    ProductionPact(s, now, repeat, cfg);
    ProductionSides(s, now, repeat, cfg);
    ProductionLinks(s, now, repeat, cfg);
  }

  // ---------------------------------------------------------------- stale sections behind an open body

  /** Handshake sections that fit the phase may stand on the wire. */
  ghost predicate Fitting(c: C.Connector, t: Trail, u: Trail, x: Section) {
    && (x == Link ==> t.role == Caller)
    && (x == LinkEcho ==> t.role == Listener && t.linked)
    && (x == Tear ==> t.begun)
    && (x == TearEcho ==> c.status == C.Finished && u.begun)
  }

  lemma FittingPact(c: C.Connector, t: Trail, d: C.Connector, u: Trail, mine: set<Section>, theirs: set<Section>, more: set<Section>)
    requires Pact(c, t, d, u, mine, theirs) && mine <= more && t.pin != 0
    requires forall x :: x in more && x !in mine ==> Fitting(c, t, u, x)
    ensures Pact(c, t, d, u, more, theirs)
  {
  }

  lemma FittingOnly(c: C.Connector, t: Trail, d: C.Connector, u: Trail, more: set<Section>, theirs: set<Section>, x: Section)
    requires Pact(c, t, d, u, more, theirs) && x in more
    ensures Fitting(c, t, u, x)
  {
  }

  /** The state of an emission against that of the bare production. */
  ghost function Stained(t: System, sent: set<Packet>, stale: seq<Section>): System {
    t.(a := t.a.(sent := sent), ab := t.ab.(forth := Join(t.ab.forth, stale)), ba := t.ba.(back := Join(t.ba.back, stale)))
  }

  ghost predicate AllHarmless(t: System, stale: seq<Section>) {
    forall x :: x in stale ==> Harmless(t, x)
  }

  lemma StainedLinks(t: System, sent: set<Packet>, stale: seq<Section>, cfg: Config)
    requires LinksOk(t, cfg) && AllHarmless(t, stale)
    ensures LinksOk(Stained(t, sent, stale), cfg)
  {
    hide L.LinkInv;
    JoinMembers(t.ab.forth, stale);
    JoinMembers(t.ba.back, stale);
    L.ForthGrows(t.a.node.ost, t.b.node.ist, t.ab, cfg, Join(t.ab.forth, stale));
    L.BackGrows(t.b.node.ost, t.a.node.ist, t.ba, cfg, Join(t.ba.back, stale));
  }

  lemma StainedPact(t: System, sent: set<Packet>, stale: seq<Section>, cfg: Config)
    requires PactOk(t) && AllHarmless(t, stale) && t.a.trail.pin != 0
    ensures PactOk(Stained(t, sent, stale))
  {
    hide Pact;
    JoinMembers(t.ab.forth, stale);
    FittingPact(t.a.node.conn, t.a.trail, t.b.node.conn, t.b.trail, t.ab.forth, t.ba.forth, Join(t.ab.forth, stale));
  }

  lemma StainedSides(t: System, sent: set<Packet>, stale: seq<Section>, cfg: Config)
    requires SideOk(t.a, t.ab, t.ba, cfg) && SideOk(t.b, t.ba, t.ab, cfg)
    requires PacketsKnown(sent, t.a.trail.pin, Join(t.ab.forth, stale)) && t.a.trail.pin != 0
    ensures var u := Stained(t, sent, stale); SideOk(u.a, u.ab, u.ba, cfg) && SideOk(u.b, u.ba, u.ab, cfg)
  {
    hide PacketsKnown, CL.Book, NodeOk;
  }

  /** The packet that really leaves, stale sections included, is made of sections the wire then knows. */
  lemma EmissionPackets(s: System, now: nat, repeat: nat, stale: seq<Section>, cfg: Config)
    requires ChannelRuns.Ready(s, cfg) && PacketsKnown(s.a.sent, s.a.trail.pin, s.ab.forth)
    requires s.a.node.conn.local == s.a.trail.pin && s.a.node.conn.status != C.Finished
    ensures var secs := Produce(s.a.node, now, repeat, cfg).sections;
            var forth := Join(Production(s, now, repeat, cfg).ab.forth, stale);
            PacketsKnown(Sent(s.a.sent, s.a.node.conn.local, secs + stale), s.a.trail.pin, forth)
  {
    hide Produce, TrackJobs, PacketsKnown, Sent, Join, NodeOk;
    var secs := Produce(s.a.node, now, repeat, cfg).sections;
    JoinAppend(s.ab.forth, secs, stale);
    PacketsGrow(s.a.sent, s.a.trail.pin, s.ab.forth, secs + stale);
  }

  /** Only an established or a calling end leaves a body open. */
  lemma OpenPhase(s: System, now: nat, repeat: nat, cfg: Config)
    requires ChannelRuns.Ready(s, cfg) && Produce(s.a.node, now, repeat, cfg).leftOpen
    ensures s.a.node.conn.status != C.Finished
    ensures Production(s, now, repeat, cfg).a.node.conn.status != C.Finished
  {
    hide C.Imbue, S.Imbue, R.Imbue, NodeOk;
  }

  lemma EmissionKeeps(s: System, now: nat, repeat: nat, stale: seq<Section>, cfg: Config)
    requires SysInv(s, cfg) && CL.Alive(s.a.node.conn.status)
    requires ChannelRuns.Ready(s, cfg)
    requires Produce(s.a.node, now, repeat, cfg).leftOpen ==> AllHarmless(Production(s, now, repeat, cfg), stale)
    ensures SysInv(Emission(s, now, repeat, stale, cfg), cfg)
  {
    hide LinksOk, PactOk, Production, Produce, PacketsKnown, AllHarmless;
    ProductionKeeps(s, now, repeat, cfg);
    if Produce(s.a.node, now, repeat, cfg).leftOpen {
      var t := Production(s, now, repeat, cfg);
      var sent := Sent(s.a.sent, s.a.node.conn.local, Produce(s.a.node, now, repeat, cfg).sections + stale);
      OpenPhase(s, now, repeat, cfg);
      OwnPin(s, cfg);
      ProductionPin(s, now, repeat, cfg);
      EmissionPackets(s, now, repeat, stale, cfg);
      hide SideOk;
      StainedLinks(t, sent, stale, cfg);
      StainedPact(t, sent, stale, cfg);
      StainedSides(t, sent, stale, cfg);
      assert Emission(s, now, repeat, stale, cfg) == Stained(t, sent, stale);
    }
  }

  lemma ProductionPin(s: System, now: nat, repeat: nat, cfg: Config)
    requires SysInv(s, cfg) && CL.Alive(s.a.node.conn.status)
    ensures ChannelRuns.Ready(s, cfg) && Production(s, now, repeat, cfg).a.trail.pin == s.a.trail.pin
  {
    hide SideOk, LinksOk, PactOk, Production;
    NodeReady(s, cfg);
    ProductionPact(s, now, repeat, cfg);
  }

  /** A fragment that fits the wire's cover of the stream is one that was sent. */
  lemma CoveredFragment(w: seq<byte>, cut: nat, forth: set<Section>, more: set<Section>, x: Section)
    requires L.WireOk(w, cut, forth) && L.WireOk(w, cut, more) && forth <= more && x in more && x.Move?
    ensures x in forth
  {
    assert L.InFragment(forth, x.handle);
    var y :| y in forth && y.Move? && y.handle <= x.handle < L.End(y);
    assert x == y;
  }

  lemma StainedCredit(t: System, sent: set<Packet>, stale: seq<Section>, x: Section, cfg: Config)
    requires LinksOk(t, cfg) && LinksOk(Stained(t, sent, stale), cfg) && x in stale
    ensures x.Move? ==> x in t.ab.forth
    ensures x.EdgeEcho? ==> x.range <= t.a.node.ost.range
    ensures x.MoveEcho? ==> x.cursor in t.ba.got
    ensures x.Edge? ==> x.range <= t.a.node.ist.edge
  {
    hide L.SenderPart, L.ReceiverPart, L.ClosedPart, L.WireOk;
    JoinMembers(t.ab.forth, stale);
    JoinMembers(t.ba.back, stale);
    if x.Move? {
      CoveredFragment(t.ab.written, t.ab.cut, t.ab.forth, Join(t.ab.forth, stale), x);
    }
  }

  /**
   * A body left open keeps the invariant of the whole system if and only if every section that stands in the stale bytes
   * behind it is harmless.
   */
  lemma StaleSectionsIff(s: System, now: nat, repeat: nat, stale: seq<Section>, cfg: Config)
    requires SysInv(s, cfg) && CL.Alive(s.a.node.conn.status)
    ensures ChannelRuns.Ready(s, cfg)
    ensures Produce(s.a.node, now, repeat, cfg).leftOpen ==>
              (SysInv(Emission(s, now, repeat, stale, cfg), cfg) <==> AllHarmless(Production(s, now, repeat, cfg), stale))
  {
    hide SideOk, LinksOk, Production, Produce, Pact, AllHarmless;
    NodeReady(s, cfg);
    if Produce(s.a.node, now, repeat, cfg).leftOpen {
      var t := Production(s, now, repeat, cfg);
      var u := Emission(s, now, repeat, stale, cfg);
      if AllHarmless(t, stale) {
        EmissionKeeps(s, now, repeat, stale, cfg);
      }
      if SysInv(u, cfg) {
        ProductionKeeps(s, now, repeat, cfg);
        assert u == Stained(t, u.a.sent, stale);
        JoinMembers(t.ab.forth, stale);
        forall x | x in stale ensures Harmless(t, x) {
          StainedCredit(t, u.a.sent, stale, x, cfg);
          FittingOnly(t.a.node.conn, t.a.trail, t.b.node.conn, t.b.trail, Join(t.ab.forth, stale), t.ba.forth, x);
        }
        AllOf(t, stale);
      }
    }
  }

  lemma AllOf(t: System, stale: seq<Section>)
    requires forall x :: x in stale ==> Harmless(t, x)
    ensures AllHarmless(t, stale)
  {
  }

  /** In particular whatever the end has sent before may stand there. */
  lemma SentIsHarmless(t: System, x: Section, cfg: Config)
    requires SysInv(t, cfg) && x in t.ab.forth
    ensures Harmless(t, x)
  {
    hide SideOk, Pact, L.SenderPart, L.ReceiverPart, L.ClosedPart, L.WireOk;
    FittingOnly(t.a.node.conn, t.a.trail, t.b.node.conn, t.b.trail, t.ab.forth, t.ba.forth, x);
  }

  // ---------------------------------------------------------------- calls

  lemma ShutLinks(s: System, code: Code, cfg: Config)
    requires LinksOk(s, cfg) && code != Success
    ensures LinksOk(Shut(s.(a := s.a.(node := AbortStreams(s.a.node, code)))), cfg)
  {
    hide L.LinkInv;
    L.SenderCloses(s.a.node.ost, s.b.node.ist, s.ab, code, cfg);
    L.ReceiverCloses(s.b.node.ost, s.a.node.ist, s.ba, code, cfg);
  }

  lemma ClosedSides(s: System, code: Code, cfg: Config)
    requires SideOk(s.a, s.ab, s.ba, cfg) && SideOk(s.b, s.ba, s.ab, cfg)
    requires CL.Book(C.Error(s.a.node.conn, code)) == CL.Book(s.a.node.conn)
    ensures var t := Shut(s.(a := s.a.(node := Mistake(s.a.node, code))));
            SideOk(t.a, t.ab, t.ba, cfg) && SideOk(t.b, t.ba, t.ab, cfg)
  {
    hide CL.Book, PacketsKnown;
  }

  lemma CloseKeeps(s: System, code: Code, cfg: Config)
    requires SysInv(s, cfg) && code != Success
    ensures SysInv(Shut(s.(a := s.a.(node := Mistake(s.a.node, code)))), cfg)
  {
    hide Pact, L.LinkInv, SideOk, CL.Book, C.Error, S.Error, R.Error;
    var s1 := s.(a := s.a.(node := s.a.node.(conn := C.Error(s.a.node.conn, code))));
    ShutLinks(s1, code, cfg);
    ErrorPact(s.a.node.conn, s.a.trail, s.b.node.conn, s.b.trail, s.ab.forth, s.ba.forth, code);
    CL.ErrorBook(s.a.node.conn, code);
    ClosedSides(s, code, cfg);
  }

  lemma FinishedKeeps(s: System, now: nat, repeat: nat, cfg: Config)
    requires SysInv(s, cfg) && s.a.node.conn.status == C.Finished
    ensures SysInv(Production(s, now, repeat, cfg), cfg)
  {
    hide Pact, L.LinkInv, CL.Book, PacketsKnown;
    ShutLinks(s, ConnectionAborted, cfg);
  }

  lemma WriteKeeps(s: System, buffer: seq<byte>, id: nat, cfg: Config)
    requires SysInv(s, cfg) && buffer != []
    ensures ChannelRuns.Ready(s, cfg) && SysInv(StepA(s, CallWrite(buffer, id), cfg), cfg)
  {
    hide Pact, L.LinkInv, CL.Book, PacketsKnown, S.Append, L.AfterWrite;
    if s.a.node.conn.status == C.Linked {
      L.WriteKeeps(s.a.node.ost, s.b.node.ist, s.ab, buffer, id, cfg);
      SL.AppendSound(s.a.node.ost, buffer, id, cfg);
      AfterWriteFrame(s.a.node.ost, s.ab, buffer, id, cfg);
    }
  }

  lemma AfterWriteFrame(o: S.Sender, h: L.History, buffer: seq<byte>, id: nat, cfg: Config)
    requires o.head <= o.tail
    ensures var g := L.AfterWrite(o, h, buffer, id, cfg);
            g.forth == h.forth && g.back == h.back && g.senderOpen == h.senderOpen && g.receiverOpen == h.receiverOpen
    ensures S.Append(o, buffer, id, cfg).moves == o.moves
  {
  }

  lemma ReadKeeps(s: System, size: nat, id: nat, cfg: Config)
    requires SysInv(s, cfg)
    ensures ChannelRuns.Ready(s, cfg) && SysInv(StepA(s, CallRead(size, id), cfg), cfg)
  {
    hide Pact, L.LinkInv, CL.Book, PacketsKnown;
    if s.a.node.conn.status == C.Linked {
      L.ReadKeeps(s.b.node.ost, s.a.node.ist, s.ba, size, id, cfg);
    }
  }

  lemma ConnectKeeps(s: System, id: nat, pin: nat, now: nat, cfg: Config)
    requires SysInv(s, cfg) && pin != 0
    ensures ChannelRuns.Ready(s, cfg)
    ensures s.a.trail.role == Caller ==> SysInv(StepA(s, CallConnect(id, pin, now), cfg), cfg)
    ensures s.a.trail.role == Listener ==> SysInv(StepA(s, CallAccept(id, pin, now), cfg), cfg)
  {
    hide L.LinkInv, CL.Book, S.Sound, R.FillsFit;
    if s.a.node.conn.status == C.Initial {
      assert s.a.trail.pin == 0 && CL.ConnectorInv(s.a.node.conn);
      hide Pact;
      ConnectPact(s.a.node.conn, s.a.trail, s.b.node.conn, s.b.trail, s.ab.forth, s.ba.forth, id, pin, now, cfg);
      CL.ConnectBook(s.a.node.conn, id, pin, now, cfg);
    }
  }

  lemma Shuffle(after: multiset<nat>, replaced: multiset<nat>, before: multiset<nat>, call: multiset<nat>, dropped: multiset<nat>)
    requires after + replaced == before + call
    ensures after + (dropped + replaced) == (before + dropped) + call
  {
    assert after + (dropped + replaced) == (after + replaced) + dropped;
  }

  lemma ShutdownKeeps(s: System, id: nat, now: nat, cfg: Config)
    requires SysInv(s, cfg)
    ensures ChannelRuns.Ready(s, cfg) && SysInv(StepA(s, CallShutdown(id, now), cfg), cfg)
  {
    hide Pact, L.LinkInv, CL.Book, PacketsKnown, S.Sound, R.FillsFit;
    KnownInv(s.a.node.conn, s.a.trail, s.b.node.conn, s.b.trail, s.ab.forth, s.ba.forth);
    ShutdownPact(s.a.node.conn, s.a.trail, s.b.node.conn, s.b.trail, s.ab.forth, s.ba.forth, id, now, cfg);
    CL.ShutdownBook(s.a.node.conn, id, now, cfg);
    CL.CallsKeep(s.a.node.conn, id, 1, now, cfg);
    var e := C.Shutdown(s.a.node.conn, id, now, cfg);
    Shuffle(CL.Book(e), CL.Replaced(s.a.node.conn), CL.Book(s.a.node.conn), multiset{id}, s.a.dropped);
    hide CL.Replaced;
  }

  // ---------------------------------------------------------------- every event, every run

  /** An end produces packets only once it has a pin. */
  lemma StepKeeps(s: System, e: Event, cfg: Config)
    requires SysInv(s, cfg) && ChannelRuns.Ready(s, cfg) && Legal(s, e, cfg)
    ensures SysInv(StepA(s, e, cfg), cfg)
  {
    hide SysInv, Production, Emission, Produce, Harmless, Delivery, Shut, Channel.Connect, Channel.Accept, Channel.Shutdown,
         Channel.Write, Channel.Read;
    NodeReady(s, cfg);
    match e
    case CallConnect(id, pin, now) => ConnectKeeps(s, id, pin, now, cfg);
    case CallAccept(id, pin, now) => ConnectKeeps(s, id, pin, now, cfg);
    case CallShutdown(id, now) => ShutdownKeeps(s, id, now, cfg);
    case CallWrite(buffer, id) => WriteKeeps(s, buffer, id, cfg);
    case CallRead(size, id) => ReadKeeps(s, size, id, cfg);
    case Deliver(p, now) => DeliveryKeeps(s, p, now, cfg);
    case Emit(now, repeat, stale) => EmitKeeps(s, now, repeat, stale, cfg);
    case Close(code) => CloseKeeps(s, code, cfg);
  }

  lemma EmitKeeps(s: System, now: nat, repeat: nat, stale: seq<Section>, cfg: Config)
    requires SysInv(s, cfg) && ChannelRuns.Ready(s, cfg) && Legal(s, Emit(now, repeat, stale), cfg)
    ensures SysInv(Emission(s, now, repeat, stale, cfg), cfg)
  {
    hide SysInv, Production, Harmless, Produce;
    if s.a.node.conn.status == C.Finished {
      FinishedProduce(s.a.node, now, repeat, cfg);
      FinishedKeeps(s, now, repeat, cfg);
    } else {
      PhaseKnown(s, cfg);
      EmissionKeeps(s, now, repeat, stale, cfg);
    }
  }

  lemma FinishedProduce(n: Node, now: nat, repeat: nat, cfg: Config)
    requires NodeOk(n, cfg) && n.conn.status == C.Finished
    ensures !Produce(n, now, repeat, cfg).leftOpen
  {
  }

  lemma PhaseKnown(s: System, cfg: Config)
    requires SysInv(s, cfg)
    ensures CL.Alive(s.a.node.conn.status) || s.a.node.conn.status == C.Initial || s.a.node.conn.status == C.Finished
  {
    hide L.LinkInv, Pact;
  }
}
