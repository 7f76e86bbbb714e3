/** Which configurations ever leave the body of a packet open, and what holds without any assumption in the others. */
module OpenBodies {
  import opened Containers
  import opened Protocol
  import opened Channel
  import opened ChannelRuns
  import opened ChannelLaws
  import opened ChannelTheorems
  import opened Handshake
  import C = Connecting
  import S = Sending
  import R = Receiving
  import CL = ConnectorLaws
  import SL = SenderLaws
  import RL = ReceiverLaws
  import F = FlightLaws
  import L = StreamLink

  /**
   * A limit that the 8-bit counter can meet, room for two fragments in flight, a send buffer that takes a byte and a
   * receive buffer that grants one.
   */
  predicate Leaky(cfg: Config) {
    cfg.attempts <= 255 && cfg.swarm >= 2 && cfg.sendBuffer >= 2 && cfg.receiveBuffer >= 1
  }

  // ---------------------------------------------------------------- runs without an assumption on stale bytes

  /** What `Legal` asks for, but for the stale sections. */
  ghost predicate Clean(s: System, e: Event, cfg: Config)
    requires ChannelRuns.Ready(s, cfg)
  {
    if e.Emit? then s.a.node.conn.status != C.Initial else Legal(s, e, cfg)
  }

  ghost predicate CleanRun(s: System, turns: seq<Turn>, cfg: Config)
    decreases |turns|
  {
    turns != [] ==>
      && ChannelRuns.Ready(View(s, turns[0].atA), cfg)
      && Clean(View(s, turns[0].atA), turns[0].event, cfg)
      && CleanRun(Take(s, turns[0], cfg), turns[1..], cfg)
  }

  /** Buffers too small for a byte carry none: nothing is written, or nothing is cut and the edge stays at 0. */
  ghost predicate Dry(r: R.Receiver, h: L.History, cfg: Config) {
    && (cfg.sendBuffer <= 1 ==> h.written == [])
    && (cfg.receiveBuffer == 0 ==> h.cut == 0 && r.edge == 0 && r.data == map[])
  }

  ghost predicate AllDry(s: System, cfg: Config) {
    Dry(s.b.node.ist, s.ab, cfg) && Dry(s.a.node.ist, s.ba, cfg)
  }

  lemma NothingFlies(s: S.Sender, r: R.Receiver, h: L.History, cfg: Config)
    requires L.LinkInv(s, r, h, cfg) && h.senderOpen && Dry(r, h, cfg) && (cfg.sendBuffer <= 1 || cfg.receiveBuffer == 0)
    ensures s.moves == map[]
  {
    hide SL.SenderInv, L.CreditOk, L.EchoesOk, L.ReceiverPart, RL.Delivered, L.FragmentsApart, L.CutCovered;
    assert s.moves.Keys == {};
  }

  /** With at most one flight, a pass that gives up has repeated nothing. */
  lemma OneFlight(s: S.Sender, room: nat, now: nat, repeat: nat, limit: nat)
    requires |s.moves.Keys| <= 1
    ensures var b := S.Resend(s, room, now, repeat, limit); b.ok || b.sections == []
  {
    hide S.Resend, S.Due, S.Overdue;
    S.ResendUnfolds(s, room, now, repeat, limit);
    var due := S.Eligible(s, room, now);
    if due != {} {
      var h := MinOf(due);
      var t := S.Repeated(s, h, now + repeat);
      if s.moves[h].attempt != limit {
        Alone(s.moves.Keys, h);
        S.OverdueShrinks(s, now, h, repeat);
        S.ResendUnfolds(t, room - SizeOf(Move(h, s.moves[h].data)), now, repeat, limit);
        NoneLeft(s, t, h, now, room - SizeOf(Move(h, s.moves[h].data)));
      }
    }
  }

  lemma NoneLeft(s: S.Sender, t: S.Sender, h: nat, now: nat, room: nat)
    requires s.moves.Keys == {h} && S.Overdue(t, now) == S.Overdue(s, now) - {h}
    ensures S.Eligible(t, room, now) == {}
  {
    assert S.Overdue(s, now) <= {h};
    assert forall k :: k in S.Eligible(t, room, now) ==> k in S.Overdue(t, now);
  }

  lemma Alone(keys: set<nat>, h: nat)
    requires h in keys && |keys| <= 1
    ensures keys == {h}
  {
    assert |keys - {h}| == 0;
    assert keys - {h} == {};
    assert keys == {h} + (keys - {h});
  }

  lemma NoOpenPass(s: S.Sender, r: R.Receiver, h: L.History, room: nat, now: nat, repeat: nat, cfg: Config)
    requires L.LinkInv(s, r, h, cfg) && h.senderOpen && Dry(r, h, cfg) && !Leaky(cfg)
    ensures s.head <= s.range
    ensures var b := S.Imbue(s, room, now, repeat, cfg); b.ok || b.sections == []
  {
    hide L.SharedPart, L.ReceiverPart, L.ClosedPart, L.QueueOk, L.FlightsKnown, SL.Ledger, SL.Total, SL.Prompt;
    assert SL.SenderInv(s, h.accepted, cfg);
    if cfg.attempts > 255 {
      F.ResendNeverBreaks(s, room, now, repeat, cfg.attempts);
    } else {
      if cfg.swarm >= 2 {
        NothingFlies(s, r, h, cfg);
        assert s.moves.Keys == {};
      }
      OneFlight(s, room, now, repeat, cfg.attempts);
    }
    hide S.Resend, S.Cut, S.EchoEdges, Dry;
  }

  lemma NoOpenBody(s: System, now: nat, repeat: nat, cfg: Config)
    requires SysInv(s, cfg) && AllDry(s, cfg) && !Leaky(cfg)
    ensures ChannelRuns.Ready(s, cfg) && !Produce(s.a.node, now, repeat, cfg).leftOpen
  {
    hide L.LinkInv, Pact, R.Imbue, S.Imbue, Dry, Leaky;
    var n := s.a.node;
    if n.conn.status != C.Finished {
      ConnectorFacts(s, cfg);
      PhaseOnlyRises(n.conn, BodyRoom(cfg), now, repeat, cfg);
      var b1 := C.Imbue(n.conn, BodyRoom(cfg), now, repeat, cfg);
      hide C.Imbue;
      if b1.connector.status == C.Linked || b1.connector.status == C.Connecting {
        var b2 := R.Imbue(n.ist, b1.room, now, repeat);
        NoOpenPass(n.ost, s.b.node.ist, s.ab, b2.room, now, repeat, cfg);
      }
    }
  }

  lemma ConnectorFacts(s: System, cfg: Config)
    requires SysInv(s, cfg)
    ensures CL.ConnectorInv(s.a.node.conn) && s.a.node.conn.status != C.Neither
  {
    hide L.LinkInv, CL.ConnectorInv, Agree, NodeOk, CL.Book;
  }

  lemma PhaseOnlyRises(c: C.Connector, room: nat, now: nat, repeat: nat, cfg: Config)
    requires CL.ConnectorInv(c) && c.status != C.Neither
    ensures C.JobsOk(c) && c.status.Rank() <= C.Imbue(c, room, now, repeat, cfg).connector.status.Rank()
  {
    hide C.RunJobs;
    if c.status != C.Initial {
      CL.RunJobsKeeps(c, room, now, repeat);
    } else {
      NothingToDo(c, room, now, repeat);
    }
  }

  lemma NothingToDo(c: C.Connector, room: nat, now: nat, repeat: nat)
    requires c.jobs == map[]
    ensures C.RunJobs(c, room, now, repeat) == C.Burst(c, [], room)
  {
  }

  // ---------------------------------------------------------------- every event keeps empty what is empty

  lemma DryCall(s: System, e: Event, cfg: Config)
    requires SysInv(s, cfg) && AllDry(s, cfg) && ChannelRuns.Ready(s, cfg) && Legal(s, e, cfg)
    requires e.CallConnect? || e.CallAccept? || e.CallShutdown? || e.CallWrite? || e.Close?
    ensures AllDry(StepA(s, e, cfg), cfg)
  {
    hide SysInv, L.LinkInv, Pact, C.Connect, C.Accept, C.Shutdown, S.Append, Track;
  }

  lemma DryRead(s: System, size: nat, id: nat, cfg: Config)
    requires AllDry(s, cfg) && ChannelRuns.Ready(s, cfg)
    ensures AllDry(StepA(s, CallRead(size, id), cfg), cfg)
  {
    hide R.Transmit, S.Sound, C.JobsOk;
    var r := s.a.node.ist;
    R.TransmitUnfolds(r.(readers := r.readers + [R.Reader(size, [], id)]));
    StaysPut(r.(readers := r.readers + [R.Reader(size, [], id)]));
  }

  /** A receiver without data has nothing to hand out. */
  lemma StaysPut(r: R.Receiver)
    requires R.FillsFit(r)
    ensures r.data == map[] ==> R.Transmit(r) == r
  {
    R.TransmitUnfolds(r);
  }

  lemma {:induction false} NoFragments(r: R.Receiver, secs: seq<Section>, cfg: Config)
    requires forall x :: x in secs ==> !x.Move?
    ensures var t := R.Scan(r, secs, cfg); t.data == r.data && t.edge == r.edge
    decreases |secs|
  {
    if secs != [] {
      NoFragments(R.Hear(r, secs[0]), secs[1..], cfg);
    }
  }

  lemma DryHear(s: System, p: Packet, cfg: Config)
    requires SysInv(s, cfg) && AllDry(s, cfg) && p in s.b.sent && cfg.receiveBuffer == 0
    ensures R.FillsFit(s.a.node.ist)
    ensures var t := R.Parse(s.a.node.ist, p.sections, cfg); t.edge == 0 && t.data == map[]
  {
    hide Pact, L.SenderPart, L.ReceiverPart, L.ClosedPart, L.CreditOk, L.EchoesOk, RL.Delivered, S.Sound, L.FragmentsApart, L.CutCovered;
    var r := s.a.node.ist;
    NoFragments(r, p.sections, cfg);
    R.ScanKeepsReaders(r, p.sections, cfg);
    StaysPut(R.Scan(r, p.sections, cfg));
    hide R.Scan, R.Transmit;
  }

  lemma DryDelivery(s: System, p: Packet, now: nat, cfg: Config)
    requires SysInv(s, cfg) && AllDry(s, cfg) && p in s.b.sent
    ensures ChannelRuns.Ready(s, cfg) && AllDry(Delivery(s, p, now, cfg), cfg)
  {
    hide SysInv, Feed, TrackAll, NodeOk, C.Admits, L.HeardAll;
    NodeReady(s, cfg);
    if cfg.receiveBuffer == 0 {
      DryHear(s, p, cfg);
      DryFeed(s.a.node, p, now, cfg);
    }
  }

  lemma DryFeed(n: Node, p: Packet, now: nat, cfg: Config)
    requires NodeOk(n, cfg) && n.ist.edge == 0 && n.ist.data == map[]
    requires var t := R.Parse(n.ist, p.sections, cfg); t.edge == 0 && t.data == map[]
    ensures var t := Feed(n, p, now, cfg).ist; t.edge == 0 && t.data == map[]
  {
    hide R.Parse, S.Parse, C.Parse, C.Admits, S.Sound, C.JobsOk;
  }

  /** Without credit beyond the head a pass cuts nothing. */
  lemma NoCredit(s: S.Sender, room: nat, now: nat, repeat: nat, cfg: Config)
    requires s.head == s.range
    ensures S.Imbue(s, room, now, repeat, cfg).sender.head == s.head
  {
    hide S.Resend, S.Cut, S.EchoEdges;
    S.ResendFrame(s, room, now, repeat, cfg.attempts);
    var first := S.Resend(s, room, now, repeat, cfg.attempts);
    S.CutUnfolds(first.sender, first.room, now, repeat, cfg.swarm);
    SL.EchoEdgesFrame(first.sender, first.room);
  }

  lemma DryEmission(s: System, now: nat, repeat: nat, stale: seq<Section>, cfg: Config)
    requires SysInv(s, cfg) && AllDry(s, cfg)
    ensures ChannelRuns.Ready(s, cfg) && AllDry(Emission(s, now, repeat, stale, cfg), cfg)
  {
    hide SysInv, NodeOk, Produce, TrackJobs, Join, Sent;
    NodeReady(s, cfg);
    Credit(s, cfg);
    DryProduce(s.a.node, now, repeat, cfg);
  }

  lemma DryProduce(n: Node, now: nat, repeat: nat, cfg: Config)
    requires NodeOk(n, cfg)
    ensures var m := Produce(n, now, repeat, cfg).node;
            && m.ist.edge == n.ist.edge
            && (n.ist.data == map[] ==> m.ist.data == map[])
            && (n.ost.head == n.ost.range == 0 ==> m.ost.head == 0)
  {
    hide C.Imbue, R.Imbue, S.Imbue, C.JobsOk, R.FillsFit;
    if n.conn.status != C.Finished {
      var b1 := C.Imbue(n.conn, BodyRoom(cfg), now, repeat, cfg);
      var b2 := R.Imbue(n.ist, b1.room, now, repeat);
      RL.ImbueFrame(n.ist, b1.room, now, repeat);
      if n.ost.head == n.ost.range {
        NoCredit(n.ost, b2.room, now, repeat, cfg);
      }
    }
  }

  /** Without a receive buffer there is no credit. */
  lemma Credit(s: System, cfg: Config)
    requires SysInv(s, cfg) && AllDry(s, cfg)
    ensures s.a.node.ost.head <= s.a.node.ost.range
    ensures cfg.receiveBuffer == 0 && s.ab.senderOpen ==> s.a.node.ost.head == s.a.node.ost.range == 0
  {
    hide Pact, L.ReceiverPart, L.ClosedPart, L.WireOk, L.EchoesOk, RL.Delivered, SL.SenderInv;
  }

  lemma DryStep(s: System, e: Event, cfg: Config)
    requires SysInv(s, cfg) && AllDry(s, cfg) && ChannelRuns.Ready(s, cfg) && Legal(s, e, cfg)
    ensures AllDry(StepA(s, e, cfg), cfg)
  {
    match e
    case CallRead(size, id) => DryRead(s, size, id, cfg);
    case Deliver(p, now) =>
      DryDelivery(s, p, now, cfg);
      hide SysInv, Delivery, AllDry;
    case Emit(now, repeat, stale) =>
      DryEmission(s, now, repeat, stale, cfg);
      hide SysInv, Emission, AllDry;
    case _ => DryCall(s, e, cfg);
  }

  lemma SwapDry(s: System, cfg: Config)
    requires AllDry(s, cfg)
    ensures AllDry(Swap(s), cfg)
  {
    hide Dry;
  }

  // ---------------------------------------------------------------- runs

  lemma CleanIsLegal(s: System, turn: Turn, cfg: Config)
    requires SysInv(s, cfg) && AllDry(s, cfg) && !Leaky(cfg)
    requires ChannelRuns.Ready(View(s, turn.atA), cfg) && Clean(View(s, turn.atA), turn.event, cfg)
    ensures Legal(View(s, turn.atA), turn.event, cfg)
    ensures AllDry(Take(s, turn, cfg), cfg)
  {
    hide SysInv, Dry, StepA, ChannelRuns.Ready, Leaky, Produce, Harmless;
    var v := View(s, turn.atA);
    if !turn.atA {
      Symmetric(s, cfg);
      SwapDry(s, cfg);
    }
    if turn.event.Emit? {
      NoOpenBody(v, turn.event.now, turn.event.repeat, cfg);
    }
    DryStep(v, turn.event, cfg);
    SwapDry(StepA(v, turn.event, cfg), cfg);
  }

  /** Outside the leaky configurations the assumption on stale sections is never used: no body is ever left open. */
  lemma {:induction false} CleanRunIsLegal(s: System, turns: seq<Turn>, cfg: Config)
    requires SysInv(s, cfg) && AllDry(s, cfg) && !Leaky(cfg) && CleanRun(s, turns, cfg)
    ensures LegalRun(s, turns, cfg) && AllDry(Exec(s, turns, cfg), cfg)
    decreases |turns|
  {
    hide SysInv, AllDry, Take, ChannelRuns.Ready, Clean, Legal, Leaky;
    if turns != [] {
      CleanIsLegal(s, turns[0], cfg);
      TakeKeeps(s, turns[0], cfg);
      CleanRunIsLegal(Take(s, turns[0], cfg), turns[1..], cfg);
    }
  }

  lemma StartDry(cfg: Config)
    ensures AllDry(Start(cfg), cfg)
  {
  }

  /** In these configurations every run delivers a prefix of what was written, whatever bytes the packet buffer holds. */
  lemma SafeWhateverIsStale(turns: seq<Turn>, atA: bool, cfg: Config)
    requires !Leaky(cfg) && CleanRun(Start(cfg), turns, cfg)
    ensures LegalRun(Start(cfg), turns, cfg)
    ensures var v := View(Exec(Start(cfg), turns, cfg), atA); RL.Delivered(v.b.node.ist) <= v.ab.written
  {
    hide SysInv, AllDry, Exec, LegalRun, CleanRun, Leaky, RL.Delivered;
    StartHolds(cfg);
    StartDry(cfg);
    CleanRunIsLegal(Start(cfg), turns, cfg);
    var v := View(Exec(Start(cfg), turns, cfg), atA);
    assert Reached(v, cfg);
    StreamSafety(v, cfg);
  }
}
