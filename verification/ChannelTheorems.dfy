/** What holds in every run of a UDP channel over a network that drops, repeats and reorders packets. */
module ChannelTheorems {
  import opened Protocol
  import Containers
  import opened Channel
  import opened ChannelRuns
  import opened ChannelLaws
  import opened Handshake
  import C = Connecting
  import S = Sending
  import R = Receiving
  import CL = ConnectorLaws
  import SL = SenderLaws
  import RL = ReceiverLaws
  import L = StreamLink

  // ---------------------------------------------------------------- runs

  /** An event and the end at which it happens. */
  datatype Turn = Turn(atA: bool, event: Event)

  ghost function View(s: System, atA: bool): System {
    if atA then s else Swap(s)
  }

  ghost function Take(s: System, turn: Turn, cfg: Config): System {
    var v := View(s, turn.atA);
    if ChannelRuns.Ready(v, cfg) then View(StepA(v, turn.event, cfg), turn.atA) else s
  }

  ghost function Exec(s: System, turns: seq<Turn>, cfg: Config): System
    decreases |turns|
  {
    if turns == [] then s else Exec(Take(s, turns[0], cfg), turns[1..], cfg)
  }

  ghost predicate LegalRun(s: System, turns: seq<Turn>, cfg: Config)
    decreases |turns|
  {
    turns != [] ==>
      && ChannelRuns.Ready(View(s, turns[0].atA), cfg)
      && Legal(View(s, turns[0].atA), turns[0].event, cfg)
      && LegalRun(Take(s, turns[0], cfg), turns[1..], cfg)
  }

  function Fresh(role: Role, cfg: Config): Side {
    Side(InitNode(cfg), Trail(role, 0, false, false, false), {}, multiset{}, multiset{})
  }

  /** Two opened ends: `a` will call and `b` will listen. */
  function Start(cfg: Config): System {
    System(Fresh(Caller, cfg), Fresh(Listener, cfg), L.InitHistory(), L.InitHistory())
  }

  lemma StartHolds(cfg: Config)
    ensures SysInv(Start(cfg), cfg)
  {
    L.InitLink(cfg);
    InitPact(Caller, Listener);
    hide L.LinkInv, Pact;
  }

  lemma TakeKeeps(s: System, turn: Turn, cfg: Config)
    requires SysInv(s, cfg) && ChannelRuns.Ready(View(s, turn.atA), cfg) && Legal(View(s, turn.atA), turn.event, cfg)
    ensures SysInv(Take(s, turn, cfg), cfg)
  {
    hide SysInv, StepA;
    var v := View(s, turn.atA);
    if !turn.atA {
      Symmetric(s, cfg);
    }
    StepKeeps(v, turn.event, cfg);
    if !turn.atA {
      Symmetric(StepA(v, turn.event, cfg), cfg);
    }
  }

  /** The invariant holds in every state of every run. */
  lemma {:induction false} RunKeeps(s: System, turns: seq<Turn>, cfg: Config)
    requires SysInv(s, cfg) && LegalRun(s, turns, cfg)
    ensures SysInv(Exec(s, turns, cfg), cfg)
    decreases |turns|
  {
    hide SysInv, Take;
    if turns != [] {
      TakeKeeps(s, turns[0], cfg);
      RunKeeps(Take(s, turns[0], cfg), turns[1..], cfg);
    }
  }

  // ---------------------------------------------------------------- growth

  /** What never shrinks or changes at end `a` from s to t. */
  ghost predicate Grows(s: System, t: System) {
    && s.a.node.conn.status.Rank() <= t.a.node.conn.status.Rank()
    && RL.Delivered(s.a.node.ist) <= RL.Delivered(t.a.node.ist)
    && s.a.node.ist.tail <= t.a.node.ist.tail
    && s.ab.written <= t.ab.written
    && (s.a.trail.pin != 0 ==> t.a.trail.pin == s.a.trail.pin)
    && (s.a.trail.linked ==> t.a.trail.linked)
    && (s.a.trail.begun ==> t.a.trail.begun)
    && t.a.trail.role == s.a.trail.role
  }

  ghost predicate BothGrow(s: System, t: System) {
    Grows(s, t) && Grows(Swap(s), Swap(t))
  }

  lemma {:induction false} TrackAllGrows(t: Trail, c: C.Connector, pin: nat, secs: seq<Section>, now: nat, cfg: Config)
    ensures var u := TrackAll(t, c, pin, secs, now, cfg);
            u.pin == t.pin && u.role == t.role && (t.linked ==> u.linked) && (t.begun ==> u.begun)
    decreases |secs|
  {
    if secs != [] {
      var e := C.ParseSection(c, pin, secs[0], now, cfg);
      TrackAllGrows(TrackSection(t, c, e), e, pin, secs[1..], now, cfg);
    }
  }

  lemma {:induction false} TrackJobsGrows(t: Trail, c: C.Connector, room: nat, now: nat, repeat: nat)
    requires C.JobsOk(c)
    ensures var u := TrackJobs(t, c, room, now, repeat);
            u.pin == t.pin && u.role == t.role && (t.linked ==> u.linked) && (t.begun ==> u.begun)
    decreases |C.Ready(c, now)|
  {
    if !(room < SECTION_HEADER || C.Ready(c, now) == {}) {
      var k := Containers.MinOf(C.Ready(c, now));
      var x := C.JobSection(c, k, now);
      C.ReadyShrinks(c, k, now, repeat);
      CL.JobsShrink(c, k, now, repeat);
      var e := C.AfterJob(c, k, now, repeat);
      TrackJobsGrows(Track(t, e), e, if SizeOf(x) <= room then room - SizeOf(x) else 0, now, repeat);
    }
  }

  lemma FeedDelivers(n: Node, p: Packet, now: nat, cfg: Config)
    requires NodeOk(n, cfg) && (Streaming(n.conn.status) ==> RL.ReaderInv(n.ist, cfg))
    requires Streaming(n.conn.status) ==> n.ist.tail <= R.Parse(n.ist, p.sections, cfg).tail
    ensures RL.Delivered(n.ist) <= RL.Delivered(Feed(n, p, now, cfg).ist)
    ensures n.ist.tail <= Feed(n, p, now, cfg).ist.tail
  {
    if Streaming(n.conn.status) {
      RL.CallsDeliver(n.ist, p.sections, 0, 0, cfg);
    }
    hide RL.Delivered, R.Parse, R.Error, S.Parse, S.Error, C.Parse, RL.ReaderInv, NodeOk;
    var ist := if Streaming(n.conn.status) then R.Parse(n.ist, p.sections, cfg) else n.ist;
    RL.ErrorDelivers(ist, ConnectionAborted);
  }

  lemma DeliveryGrows(s: System, p: Packet, now: nat, cfg: Config)
    requires SysInv(s, cfg) && p in s.b.sent
    ensures ChannelRuns.Ready(s, cfg) && Grows(s, Delivery(s, p, now, cfg))
  {
    hide SysInv, RL.Delivered, Feed, TrackAll, PactOk, CL.Book, C.JobsOk;
    NodeReady(s, cfg);
    var n := s.a.node;
    if C.Admits(n.conn, p.pin) {
      DeliveryPact(s, p, now, cfg);
      TrackAllGrows(s.a.trail, n.conn.(seen := At(now)), p.pin, p.sections, now, cfg);
      if Streaming(n.conn.status) {
        OpenReader(s, cfg);
        HeardTail(s, p, cfg);
      }
      FeedDelivers(n, p, now, cfg);
    }
  }

  lemma HeardTail(s: System, p: Packet, cfg: Config)
    requires SysInv(s, cfg) && p in s.b.sent && s.ba.receiverOpen
    ensures R.FillsFit(s.a.node.ist) && s.a.node.ist.tail <= R.Parse(s.a.node.ist, p.sections, cfg).tail
  {
    hide Pact, L.LinkInv, NodeOk, CL.Book;
    L.ReceiverHearsAll(s.b.node.ost, s.a.node.ist, s.ba, p.sections, cfg);
  }

  lemma OpenReader(s: System, cfg: Config)
    requires SysInv(s, cfg) && s.a.node.conn.status.Rank() <= 4
    ensures RL.ReaderInv(s.a.node.ist, cfg) && s.ab.senderOpen && s.ba.receiverOpen
    ensures s.a.node.ost.head <= s.a.node.ost.tail
  {
    hide Pact, L.SharedPart, L.SenderPart, L.ClosedPart, PacketsKnown, CL.Book;
  }

  lemma ProduceDelivers(n: Node, now: nat, repeat: nat, cfg: Config)
    requires NodeOk(n, cfg)
    ensures RL.Delivered(Produce(n, now, repeat, cfg).node.ist) == RL.Delivered(n.ist)
    ensures Produce(n, now, repeat, cfg).node.ist.tail == n.ist.tail
  {
    hide R.Imbue, S.Imbue, C.Imbue, S.Error;
    RL.ErrorDelivers(n.ist, ConnectionAborted);
    var b1 := C.Imbue(n.conn, BodyRoom(cfg), now, repeat, cfg);
    RL.ImbueFrame(n.ist, b1.room, now, repeat);
  }

  lemma ProductionGrows(s: System, now: nat, repeat: nat, cfg: Config)
    requires SysInv(s, cfg) && s.a.node.conn.status != C.Initial
    ensures ChannelRuns.Ready(s, cfg) && Grows(s, Production(s, now, repeat, cfg))
  {
    hide SysInv, RL.Delivered, R.Imbue, S.Imbue, C.Imbue, TrackJobs, PactOk, CL.Book, C.TimedOut, Join;
    NodeReady(s, cfg);
    PhaseKnown(s, cfg);
    ProduceDelivers(s.a.node, now, repeat, cfg);
    if s.a.node.conn.status != C.Finished {
      ProductionPact(s, now, repeat, cfg);
      TrackJobsGrows(s.a.trail, s.a.node.conn, BodyRoom(cfg), now, repeat);
    }
  }

  lemma EmissionGrows(s: System, now: nat, repeat: nat, stale: seq<Section>, cfg: Config)
    requires ChannelRuns.Ready(s, cfg) && Grows(s, Production(s, now, repeat, cfg))
    ensures Grows(s, Emission(s, now, repeat, stale, cfg))
  {
    hide Production, Produce, RL.Delivered, Join, Sent;
  }

  lemma AppendTail(r: R.Receiver, size: nat, id: nat, cfg: Config)
    requires RL.ReaderInv(r, cfg)
    ensures R.FillsFit(r) && R.Append(r, size, id).tail == r.tail
  {
    RL.Fits(r, cfg);
    RL.TransmitTail(r.(readers := r.readers + [R.Reader(size, [], id)]));
  }

  lemma ReadGrows(s: System, size: nat, id: nat, cfg: Config)
    requires SysInv(s, cfg)
    ensures ChannelRuns.Ready(s, cfg) && Grows(s, StepA(s, CallRead(size, id), cfg))
  {
    hide SysInv, RL.Delivered, R.Append, NodeOk, RL.ReaderInv;
    NodeReady(s, cfg);
    if s.a.node.conn.status == C.Linked {
      OpenReader(s, cfg);
      RL.CallsDeliver(s.a.node.ist, [], size, id, cfg);
      RL.EnqueueKeeps(s.a.node.ist, size, id, cfg);
      AppendTail(s.a.node.ist, size, id, cfg);
    }
  }

  lemma CallGrows(s: System, e: Event, cfg: Config)
    requires SysInv(s, cfg) && (e.CallConnect? || e.CallAccept? || e.CallShutdown? || e.CallWrite? || e.Close?)
    ensures ChannelRuns.Ready(s, cfg) && Grows(s, StepA(s, e, cfg))
  {
    hide SysInv, RL.Delivered, NodeOk, S.Append, R.Error, S.Error;
    NodeReady(s, cfg);
    InitialPin(s, cfg);
    if e.Close? {
      RL.ErrorDelivers(s.a.node.ist, e.code);
    }
  }

  lemma StepGrows(s: System, e: Event, cfg: Config)
    requires SysInv(s, cfg) && ChannelRuns.Ready(s, cfg) && Legal(s, e, cfg)
    ensures Grows(s, StepA(s, e, cfg))
  {
    hide SysInv, Grows, Delivery, Production, Emission, Harmless, Produce;
    match e
    case Deliver(p, now) => DeliveryGrows(s, p, now, cfg);
    case Emit(now, repeat, stale) =>
      ProductionGrows(s, now, repeat, cfg);
      EmissionGrows(s, now, repeat, stale, cfg);
    case CallRead(size, id) => ReadGrows(s, size, id, cfg);
    case _ => CallGrows(s, e, cfg);
  }

  lemma InitialPin(s: System, cfg: Config)
    requires SysInv(s, cfg)
    ensures s.a.node.conn.status == C.Initial ==> s.a.trail.pin == 0
  {
    hide L.LinkInv, SideOk;
  }

  lemma TakeGrows(s: System, turn: Turn, cfg: Config)
    requires SysInv(s, cfg) && ChannelRuns.Ready(View(s, turn.atA), cfg) && Legal(View(s, turn.atA), turn.event, cfg)
    ensures BothGrow(s, Take(s, turn, cfg))
  {
    hide SysInv, RL.Delivered, StepA;
    var v := View(s, turn.atA);
    if !turn.atA {
      Symmetric(s, cfg);
    }
    StepGrows(v, turn.event, cfg);
    FarEndStays(v, turn.event, cfg);
  }

  /** An event at one end leaves the other end alone. */
  lemma FarEndStays(s: System, e: Event, cfg: Config)
    requires ChannelRuns.Ready(s, cfg)
    ensures StepA(s, e, cfg).b == s.b && StepA(s, e, cfg).ba.written == s.ba.written
  {
    hide NodeOk, S.Append, R.Append, S.Error, R.Error, S.Parse, R.Parse, S.Imbue, R.Imbue, C.Imbue, C.Parse, TrackAll, TrackJobs,
         L.AfterWrite, L.HeardAll, Join, Sent;
  }

  lemma {:induction false} RunGrows(s: System, turns: seq<Turn>, cfg: Config)
    requires SysInv(s, cfg) && LegalRun(s, turns, cfg)
    ensures BothGrow(s, Exec(s, turns, cfg))
    decreases |turns|
  {
    hide SysInv, Take, RL.Delivered, ChannelRuns.Ready;
    if turns != [] {
      TakeKeeps(s, turns[0], cfg);
      TakeGrows(s, turns[0], cfg);
      RunGrows(Take(s, turns[0], cfg), turns[1..], cfg);
    }
  }

  /** A state some run reaches, seen with either end first: from its first end to its second flows one direction. */
  ghost predicate Reached(v: System, cfg: Config) {
    exists turns, atA :: LegalRun(Start(cfg), turns, cfg) && v == View(Exec(Start(cfg), turns, cfg), atA)
  }

  lemma ReachedInv(v: System, cfg: Config)
    requires Reached(v, cfg)
    ensures SysInv(v, cfg)
  {
    hide SysInv, Take;
    var turns, atA :| LegalRun(Start(cfg), turns, cfg) && v == View(Exec(Start(cfg), turns, cfg), atA);
    StartHolds(cfg);
    RunKeeps(Start(cfg), turns, cfg);
    if !atA {
      Symmetric(Exec(Start(cfg), turns, cfg), cfg);
    }
  }

  lemma {:induction false} RunSnoc(s: System, turns: seq<Turn>, turn: Turn, cfg: Config)
    requires LegalRun(s, turns, cfg)
    requires var v := View(Exec(s, turns, cfg), turn.atA); ChannelRuns.Ready(v, cfg) && Legal(v, turn.event, cfg)
    ensures LegalRun(s, turns + [turn], cfg)
    ensures Exec(s, turns + [turn], cfg) == Take(Exec(s, turns, cfg), turn, cfg)
    decreases |turns|
  {
    hide Take, ChannelRuns.Ready, Legal;
    if turns == [] {
      assert (turns + [turn])[1..] == [];
    } else {
      assert (turns + [turn])[1..] == turns[1..] + [turn];
      RunSnoc(Take(s, turns[0], cfg), turns[1..], turn, cfg);
    }
  }

  /** Runs may begin with nothing, go on with any legal event, and be seen from either end. */
  lemma StartReached(cfg: Config)
    ensures Reached(Start(cfg), cfg)
  {
    assert LegalRun(Start(cfg), [], cfg) && Start(cfg) == View(Exec(Start(cfg), [], cfg), true);
  }

  lemma StepReached(v: System, e: Event, cfg: Config)
    requires Reached(v, cfg) && ChannelRuns.Ready(v, cfg) && Legal(v, e, cfg)
    ensures Reached(StepA(v, e, cfg), cfg)
  {
    hide StepA, Legal, ChannelRuns.Ready;
    var turns, atA :| LegalRun(Start(cfg), turns, cfg) && v == View(Exec(Start(cfg), turns, cfg), atA);
    var turn := Turn(atA, e);
    assert View(Exec(Start(cfg), turns, cfg), turn.atA) == v;
    RunSnoc(Start(cfg), turns, turn, cfg);
    assert StepA(v, e, cfg) == View(Exec(Start(cfg), turns + [turn], cfg), atA);
  }

  lemma SwapReached(v: System, cfg: Config)
    requires Reached(v, cfg)
    ensures Reached(Swap(v), cfg)
  {
    hide Exec, LegalRun;
    var turns, atA :| LegalRun(Start(cfg), turns, cfg) && v == View(Exec(Start(cfg), turns, cfg), atA);
    assert Swap(v) == View(Exec(Start(cfg), turns, cfg), !atA);
  }

  // ---------------------------------------------------------------- the stream

  /** Byte o of the stream w is with r: placed in a read or buffered. */
  ghost predicate AtReceiver(r: R.Receiver, w: seq<byte>, o: nat)
    requires o < |w|
  {
    || (o < |RL.Delivered(r)| && RL.Delivered(r)[o] == w[o])
    || exists k :: k in r.data && k <= o < k + |r.data[k]| && r.data[k][o - k] == w[o]
  }

  ghost predicate InFlight(s: S.Sender, w: seq<byte>, o: nat)
    requires o < |w|
  {
    exists k :: k in s.moves && k <= o < k + |s.moves[k].data| && s.moves[k].data[o - k] == w[o]
  }

  ghost predicate Queued(s: S.Sender, w: seq<byte>, o: nat)
    requires o < |w|
  {
    s.head <= o && o - s.head < |Containers.Concat(s.queue)| && Containers.Concat(s.queue)[o - s.head] == w[o]
  }

  /** In every run, what reads have received is a prefix of what was written. */
  lemma StreamSafety(v: System, cfg: Config)
    requires Reached(v, cfg)
    ensures RL.Delivered(v.b.node.ist) <= v.ab.written
  {
    hide Reached, Pact, SideOk;
    ReachedInv(v, cfg);
  }

  /** A fragment that has arrived has all its bytes at the receiver. */
  lemma PresentBytes(r: R.Receiver, h: L.History, x: Section, o: nat, cfg: Config)
    requires L.WireOk(h.written, h.cut, h.forth) && L.ReceiverPart(r, h, cfg)
    requires x in h.forth && x.Move? && x.handle in h.got && x.handle <= o < L.End(x)
    ensures o < |h.written| && AtReceiver(r, h.written, o)
  {
    assert L.Present(r.data, r.head, x);
    if r.head <= o {
      var k := if x.handle < r.head then r.head else x.handle;
      assert k in r.data && k <= o < k + |r.data[k]|;
      assert L.IsSlice(r.data[k], h.written, k);
    }
  }

  /** While both ends are open, every accepted byte is queued, in flight, or at the receiver. */
  lemma NothingLost(v: System, o: nat, cfg: Config)
    requires Reached(v, cfg) && v.ab.senderOpen && v.ab.receiverOpen && o < |v.ab.written|
    ensures Queued(v.a.node.ost, v.ab.written, o)
            || InFlight(v.a.node.ost, v.ab.written, o)
            || AtReceiver(v.b.node.ist, v.ab.written, o)
  {
    hide Reached, Pact, SideOk;
    ReachedInv(v, cfg);
    PlaceOfByte(v.a.node.ost, v.b.node.ist, v.ab, o, cfg);
  }

  /** A fragment that is still in the flight table holds its bytes of the stream. */
  lemma FlightBytes(s: S.Sender, h: L.History, x: Section, o: nat)
    requires L.WireOk(h.written, h.cut, h.forth) && L.FlightsKnown(s.moves, h.forth, h.got)
    requires x in h.forth && x.Move? && x.handle in s.moves && x.handle <= o < L.End(x) && o < |h.written|
    ensures InFlight(s, h.written, o)
  {
    var y := Move(x.handle, s.moves[x.handle].data);
    assert y in h.forth;
    assert x == y;
    assert L.IsSlice(x.fragment, h.written, x.handle);
  }

  lemma QueueBytes(s: S.Sender, h: L.History, o: nat)
    requires L.QueueOk(s, h.written, h.cut) && h.cut <= o < |h.written|
    ensures Queued(s, h.written, o)
  {
    assert Containers.Concat(s.queue)[o - s.head] == h.written[s.head..][o - s.head];
  }

  lemma PlaceOfByte(s: S.Sender, r: R.Receiver, h: L.History, o: nat, cfg: Config)
    requires L.WireOk(h.written, h.cut, h.forth) && L.SenderPart(s, h, cfg) && L.ReceiverPart(r, h, cfg)
    requires o < |h.written|
    ensures Queued(s, h.written, o) || InFlight(s, h.written, o) || AtReceiver(r, h.written, o)
  {
    hide SL.SenderInv, RL.ReaderInv, RL.Quiet, Queued, InFlight, AtReceiver, L.QueueOk, L.ReceiverPart;
    if o < h.cut {
      assert L.InFragment(h.forth, o);
      var x :| x in h.forth && x.Move? && x.handle <= o < L.End(x);
      if x.handle in s.moves {
        FlightBytes(s, h, x, o);
      } else {
        PresentBytes(r, h, x, o, cfg);
      }
    } else {
      QueueBytes(s, h, o);
    }
  }

  /**
   * Every byte that a write reported as sent, in success or on failure, has arrived at the peer; as long as the
   * peer is open it is in its buffer or in its reads.
   */
  lemma AcksAreSound(v: System, o: nat, cfg: Config)
    requires Reached(v, cfg) && o < SL.Total(v.a.node.ost.posted)
    ensures L.Arrived(v.ab.forth, v.ab.got, o)
    ensures v.ab.receiverOpen ==> o < |v.ab.written| && AtReceiver(v.b.node.ist, v.ab.written, o)
  {
    hide Reached, Pact, SideOk, SL.Total;
    ReachedInv(v, cfg);
    ReportedArrived(v.a.node.ost, v.b.node.ist, v.ab, o, cfg);
    if v.ab.receiverOpen {
      var x :| x in v.ab.forth && x.Move? && x.handle <= o < L.End(x) && x.handle in v.ab.got;
      PresentBytes(v.b.node.ist, v.ab, x, o, cfg);
    }
  }

  lemma ReportedArrived(s: S.Sender, r: R.Receiver, h: L.History, o: nat, cfg: Config)
    requires L.LinkInv(s, r, h, cfg) && o < SL.Total(s.posted)
    ensures L.Arrived(h.forth, h.got, o)
  {
    if h.senderOpen {
      L.CursorArrived(s, h, cfg);
    }
  }

  /** Successes come in the order of the accepted writes and with their sizes; what is pending follows in order. */
  lemma SuccessesInOrder(v: System, cfg: Config)
    requires Reached(v, cfg) && v.ab.senderOpen
    ensures SL.Settled(v.a.node.ost.posted) + SL.Pending(v.a.node.ost.writers) == v.ab.accepted
    ensures SL.Tiles(v.a.node.ost.writers, SL.Total(v.a.node.ost.posted), |v.ab.written|)
  {
    hide Reached, Pact, SideOk, L.SharedPart, L.ReceiverPart, SL.FlightsOk, S.Sound, L.FlightsKnown;
    ReachedInv(v, cfg);
  }

  /**
   * In every reached state, an error included: the writes reported as sent are the first ones that were accepted, in
   * order and with their full sizes.
   */
  lemma SuccessesArePrefix(v: System, cfg: Config)
    requires Reached(v, cfg)
    ensures SL.Settled(v.a.node.ost.posted) <= v.ab.accepted
  {
    hide Reached, Pact, SideOk;
    ReachedInv(v, cfg);
    SettledPrefix(v.a.node.ost, v.b.node.ist, v.ab, cfg);
  }

  lemma SettledPrefix(s: S.Sender, r: R.Receiver, h: L.History, cfg: Config)
    requires L.LinkInv(s, r, h, cfg)
    ensures SL.Settled(s.posted) <= h.accepted
  {
    hide L.SharedPart, L.ReceiverPart, SL.FlightsOk, S.Sound, L.FlightsKnown, SL.Settled, SL.Pending, SL.Tiles;
  }

  // ---------------------------------------------------------------- flow control

  /**
   * The credit chain: nothing is sent beyond the sender's credit, the credit never exceeds the advertised edge,
   * and the edge never exceeds the receive buffer. So no fragment is ever refused and the buffer never overflows.
   */
  lemma FlowControl(v: System, cfg: Config)
    requires Reached(v, cfg) && v.ab.senderOpen && v.ab.receiverOpen
    ensures v.a.node.ost.head <= v.a.node.ost.range <= v.b.node.ist.edge <= v.b.node.ist.head + cfg.receiveBuffer
    ensures forall k :: k in v.b.node.ist.data ==>
              k + |v.b.node.ist.data[k]| <= v.b.node.ist.tail <= v.b.node.ist.head + cfg.receiveBuffer
    ensures RL.Buffered(v.b.node.ist.data, v.b.node.ist.data.Keys) <= cfg.receiveBuffer
  {
    hide Reached, Pact, SideOk;
    ReachedInv(v, cfg);
    L.HeadWithinCredit(v.a.node.ost, v.b.node.ist, v.ab, cfg);
    WindowHolds(v.a.node.ost, v.b.node.ist, v.ab, cfg);
  }

  lemma WindowHolds(s: S.Sender, r: R.Receiver, h: L.History, cfg: Config)
    requires L.ReceiverPart(r, h, cfg) && L.CreditOk(s.range, s.acks, r.edge, r.edgeTime, h)
    ensures r.edge <= r.head + cfg.receiveBuffer
    ensures forall k :: k in r.data ==> k + |r.data[k]| <= r.tail <= r.head + cfg.receiveBuffer
    ensures RL.Buffered(r.data, r.data.Keys) <= cfg.receiveBuffer
  {
    RL.FrontOnly(r, cfg);
    hide RL.ReaderInv, RL.Quiet, L.FragmentsSettled;
    forall k | k in r.data ensures k + |r.data[k]| <= r.tail <= r.head + cfg.receiveBuffer {
      var last: nat := Containers.MaxOf(r.data.Keys);
      assert k <= last && last + |r.data[last]| == r.tail;
    }
    RL.BufferedFits(r.data, r.data.Keys, r.head, r.head + cfg.receiveBuffer);
  }

  /** No fragment was ever turned away, open or not. */
  lemma NoFragmentRefused(v: System, cfg: Config)
    requires Reached(v, cfg)
    ensures v.b.node.ist.alarms == []
  {
    hide Reached, Pact, SideOk;
    ReachedInv(v, cfg);
  }

  /** Once the receiver has stopped announcing its edge, the sender knows it: no window update is lost. */
  lemma NoWindowUpdateLost(v: System, cfg: Config)
    requires Reached(v, cfg) && v.b.node.ist.edgeTime == Never
    ensures v.a.node.ost.range == v.b.node.ist.edge
  {
    hide Reached, Pact, SideOk;
    ReachedInv(v, cfg);
  }

  // ---------------------------------------------------------------- reassembly and reads

  /** The reassembly map: disjoint non-empty true slices of the stream between head and tail. */
  lemma Reassembly(v: System, cfg: Config)
    requires Reached(v, cfg) && v.ab.receiverOpen
    ensures var r := v.b.node.ist;
            && RL.DisjointEntries(r.data)
            && (forall k :: k in r.data ==> r.head <= k && L.IsSlice(r.data[k], v.ab.written, k))
            && L.TailOk(r.data, r.head, r.tail)
            && r.head <= |v.ab.written| && RL.Delivered(r) == v.ab.written[..r.head]
  {
    hide Reached, Pact, SideOk, L.FragmentsSettled, RL.ReaderInv, L.SenderPart;
    ReachedInv(v, cfg);
  }

  /** Reads are served in order, the edge counts completed reads, and a read the buffer can hold fits the edge. */
  lemma ReadsInOrder(v: System, cfg: Config)
    requires Reached(v, cfg) && v.ab.receiverOpen
    ensures var r := v.b.node.ist;
            && r.edge == cfg.receiveBuffer + |RL.Returned(r.posted)|
            && (forall i :: 1 <= i < |r.readers| ==> r.readers[i].fill == [])
            && (r.readers != [] && r.readers[0].size <= cfg.receiveBuffer ==>
                  |RL.Returned(r.posted)| + r.readers[0].size <= r.edge)
  {
    hide Reached, Pact, SideOk, L.ReasmOk, L.SenderPart, L.SharedPart;
    ReachedInv(v, cfg);
  }

  /** `readable` is the length of the gapless run after the head if no read waits, and 0 otherwise. */
  lemma ReadableIsExact(v: System, cfg: Config)
    requires Reached(v, cfg) && v.ab.receiverOpen
    ensures RL.ReaderInv(v.b.node.ist, cfg)
    ensures v.b.node.ist.readers == [] ==> RL.IsRun(v.b.node.ist, R.Readable(v.b.node.ist))
    ensures v.b.node.ist.readers != [] ==> R.Readable(v.b.node.ist) == 0
  {
    hide Reached, Pact, SideOk, L.SenderPart, L.SharedPart, L.FragmentsSettled, L.TailOk;
    ReachedInv(v, cfg);
    RL.ReadableMeaning(v.b.node.ist, cfg);
    RL.ReadableBytesMeaning(v.b.node.ist);
  }

  // ---------------------------------------------------------------- the connection

  /**
   * In every run: a connected end knows the pin of its peer, and when the calling end is connected the listening
   * end has been connected too.
   */
  lemma ConnectionAgreement(v: System, cfg: Config)
    requires Reached(v, cfg) && Joined(v.a.node.conn.status)
    ensures v.a.node.conn.remote == v.b.trail.pin != 0
    ensures Joined(v.b.node.conn.status) ==> v.b.node.conn.remote == v.a.node.conn.local != 0
    ensures v.a.trail.role == Caller ==> v.b.trail.linked
  {
    hide Reached, L.LinkInv, SideOk;
    ReachedInv(v, cfg);
  }

  /** A shutdown answered by a tear echo finds the peer finished; an end that sends a tear echo had a peer that began. */
  lemma ShutdownAgreement(v: System, cfg: Config)
    requires Reached(v, cfg)
    ensures v.a.trail.echoed ==> v.a.trail.begun && v.b.node.conn.status == C.Finished
    ensures TearEcho in v.ab.forth ==> v.a.node.conn.status == C.Finished && v.b.trail.begun
    ensures v.a.node.conn.status == C.Tearing ==> v.b.trail.begun
  {
    hide Reached, L.LinkInv, SideOk;
    ReachedInv(v, cfg);
  }

  /** Jobs and handler slots match the phase, and no empty handler was ever posted. */
  lemma PhasesAreArmed(v: System, cfg: Config)
    requires Reached(v, cfg)
    ensures v.a.node.conn.status == C.Connecting ==> C.LINK in v.a.node.conn.jobs && v.a.node.conn.onConnect != C.NoHandler
    ensures v.a.node.conn.status == C.Accepting ==> v.a.node.conn.onConnect != C.NoHandler
    ensures v.a.node.conn.status == C.Shutting ==> C.TEAR in v.a.node.conn.jobs && v.a.node.conn.onShutdown != C.NoHandler
    ensures forall i :: 0 <= i < |v.a.node.conn.posted| ==> v.a.node.conn.posted[i].handler != C.NoHandler
  {
    hide Reached, L.LinkInv, SideOk;
    ReachedInv(v, cfg);
  }

  /**
   * A connect that is never answered: an end that is finished still holds its connect handler exactly if it has sent a
   * tear echo, was never linked, and has not been closed since (closing clears the local pin).
   */
  lemma ConnectUnansweredIff(v: System, cfg: Config)
    requires Reached(v, cfg) && v.a.node.conn.status == C.Finished
    ensures v.a.node.conn.onConnect != C.NoHandler
            <==> TearEcho in v.ab.forth && !v.a.trail.linked && v.a.node.conn.local != 0
  {
    hide Reached, L.LinkInv, SideOk;
    ReachedInv(v, cfg);
  }

  /** A listener that is no longer accepting has answered every `accept`: no handler it was given is still kept for it. */
  lemma AcceptIsAnswered(v: System, cfg: Config)
    requires Reached(v, cfg) && v.a.trail.role == Listener && v.a.node.conn.status != C.Accepting
    ensures v.a.node.conn.onConnect == C.NoHandler
    ensures CL.PostedIds(v.a.node.conn.posted) + CL.Held(v.a.node.conn.onShutdown) + v.a.dropped == v.a.calls
  {
    hide Reached, L.LinkInv, PacketsKnown, CL.PostedIds;
    ReachedInv(v, cfg);
  }

  /**
   * Conservation of handlers: every handler given to the connector is posted, still kept, or was replaced by a
   * later shutdown; once an end is closed, every handler that was not replaced has been posted exactly once.
   */
  lemma HandlersConserved(v: System, code: Code, cfg: Config)
    requires Reached(v, cfg)
    ensures CL.Book(v.a.node.conn) + v.a.dropped == v.a.calls
    ensures CL.PostedIds(Mistake(v.a.node, code).conn.posted) + v.a.dropped == v.a.calls
  {
    hide Reached, L.LinkInv, Pact, PacketsKnown, CL.Book;
    ReachedInv(v, cfg);
    CL.ErrorBook(v.a.node.conn, code);
  }

  /**
   * Along every run: phases only advance, reads only gain bytes, writes are only added, and a known peer pin is
   * never exchanged for another one.
   */
  lemma RunsOnlyAdvance(before: seq<Turn>, after: seq<Turn>, atA: bool, cfg: Config)
    requires LegalRun(Start(cfg), before, cfg) && LegalRun(Exec(Start(cfg), before, cfg), after, cfg)
    ensures var s := View(Exec(Start(cfg), before, cfg), atA);
            var t := View(Exec(Exec(Start(cfg), before, cfg), after, cfg), atA);
            && s.a.node.conn.status.Rank() <= t.a.node.conn.status.Rank()
            && RL.Delivered(s.b.node.ist) <= RL.Delivered(t.b.node.ist)
            && s.b.node.ist.tail <= t.b.node.ist.tail
            && s.ab.written <= t.ab.written
            && (s.a.node.conn.remote != 0 && t.a.node.conn.remote != 0 ==> t.a.node.conn.remote == s.a.node.conn.remote)
  {
    hide Take, SysInv, RL.Delivered;
    StartHolds(cfg);
    RunKeeps(Start(cfg), before, cfg);
    var s := Exec(Start(cfg), before, cfg);
    RunGrows(s, after, cfg);
    RunKeeps(s, after, cfg);
    var t := Exec(s, after, cfg);
    RemoteKnown(s, cfg);
    RemoteKnown(t, cfg);
  }

  lemma RemoteKnown(s: System, cfg: Config)
    requires SysInv(s, cfg)
    ensures s.a.node.conn.remote == 0 || s.a.node.conn.remote == s.b.trail.pin
    ensures s.b.node.conn.remote == 0 || s.b.node.conn.remote == s.a.trail.pin
  {
    hide L.LinkInv, SideOk;
  }
}
