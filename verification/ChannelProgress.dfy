/** From every established connection some run goes on until every written byte has been delivered and every write settled. */
module ChannelProgress {
  import opened Containers
  import opened Protocol
  import opened Channel
  import opened ChannelRuns
  import opened ChannelLaws
  import opened ChannelTheorems
  import opened Handshake
  import opened PassLaws
  import C = Connecting
  import S = Sending
  import R = Receiving
  import CL = ConnectorLaws
  import SL = SenderLaws
  import RL = ReceiverLaws
  import F = FlightLaws
  import L = StreamLink

  // ---------------------------------------------------------------- runs that go on

  /** Some legal run leads from v to w. */
  ghost predicate Follows(v: System, w: System, cfg: Config) {
    exists turns :: LegalRun(v, turns, cfg) && w == Exec(v, turns, cfg)
  }

  lemma FollowsSelf(v: System, cfg: Config)
    ensures Follows(v, v, cfg)
  {
    assert LegalRun(v, [], cfg) && v == Exec(v, [], cfg);
  }

  lemma {:induction false} ExecAppend(v: System, a: seq<Turn>, b: seq<Turn>, cfg: Config)
    requires LegalRun(v, a, cfg) && LegalRun(Exec(v, a, cfg), b, cfg)
    ensures LegalRun(v, a + b, cfg) && Exec(v, a + b, cfg) == Exec(Exec(v, a, cfg), b, cfg)
    decreases |a|
  {
    hide Take, ChannelRuns.Ready, Legal;
    if a == [] {
      assert a + b == b;
    } else {
      assert (a + b)[1..] == a[1..] + b;
      ExecAppend(Take(v, a[0], cfg), a[1..], b, cfg);
    }
  }

  lemma FollowsOn(u: System, v: System, w: System, cfg: Config)
    requires Follows(u, v, cfg) && Follows(v, w, cfg)
    ensures Follows(u, w, cfg)
  {
    hide LegalRun, Exec;
    var a :| LegalRun(u, a, cfg) && v == Exec(u, a, cfg);
    var b :| LegalRun(v, b, cfg) && w == Exec(v, b, cfg);
    ExecAppend(u, a, b, cfg);
  }

  lemma FollowsStep(v: System, e: Event, cfg: Config)
    requires ChannelRuns.Ready(v, cfg) && Legal(v, e, cfg)
    ensures Follows(v, StepA(v, e, cfg), cfg)
  {
    hide Legal, ChannelRuns.Ready, StepA;
    var turn := Turn(true, e);
    RunSnoc(v, [], turn, cfg);
    assert LegalRun(v, [] + [turn], cfg) && StepA(v, e, cfg) == Exec(v, [] + [turn], cfg);
  }

  function Mirrored(turns: seq<Turn>): seq<Turn> {
    if turns == [] then [] else [Turn(!turns[0].atA, turns[0].event)] + Mirrored(turns[1..])
  }

  lemma {:induction false} MirroredRun(v: System, turns: seq<Turn>, cfg: Config)
    requires LegalRun(v, turns, cfg)
    ensures LegalRun(Swap(v), Mirrored(turns), cfg) && Exec(Swap(v), Mirrored(turns), cfg) == Swap(Exec(v, turns, cfg))
    decreases |turns|
  {
    hide ChannelRuns.Ready, Legal, StepA;
    if turns != [] {
      var t := turns[0];
      var m := Mirrored(turns);
      assert m[1..] == Mirrored(turns[1..]);
      assert View(Swap(v), m[0].atA) == View(v, t.atA);
      assert Take(Swap(v), m[0], cfg) == Swap(Take(v, t, cfg));
      MirroredRun(Take(v, t, cfg), turns[1..], cfg);
    }
  }

  lemma FollowsSwapped(v: System, w: System, cfg: Config)
    requires Follows(v, w, cfg)
    ensures Follows(Swap(v), Swap(w), cfg)
  {
    hide LegalRun, Exec;
    var turns :| LegalRun(v, turns, cfg) && w == Exec(v, turns, cfg);
    MirroredRun(v, turns, cfg);
  }

  // ---------------------------------------------------------------- one pass, one end

  /** An established end that the clock has not timed out and whose due flights may all be sent once more. */
  ghost predicate Calm(n: Node, now: nat, cfg: Config) {
    n.conn.status == C.Linked && !C.TimedOut(n.conn, now, cfg) && NoneSpent(n.ost, now, cfg.attempts)
  }

  /** All there is to send at an end. */
  function Work(n: Node, now: nat): nat {
    |C.Ready(n.conn, now)| + Dues(n.ist, now) + Load(n.ost, now)
  }

  /** Nothing left to send: what is still queued waits for credit or for a place in the flight table. */
  ghost predicate Still(n: Node, now: nat, cfg: Config) {
    && n.ist.acks == {} && !n.ist.edgeTime.NotAfter(now)
    && S.Overdue(n.ost, now) == {}
    && (n.ost.queue == [] || |n.ost.moves| >= cfg.swarm || n.ost.head == n.ost.range)
  }

  /** What a pass needs to know of an end. */
  ghost predicate Able(n: Node, cfg: Config) {
    && NodeOk(n, cfg) && C.TEAR_ECHO !in n.conn.jobs
    && n.ost.head <= n.ost.range && F.Loaded(n.ost) && FlightsFit(n.ost.moves, cfg)
  }

  /** How a sender stands after it has sent, and after it has listened. */
  ghost predicate Spoke(s: S.Sender, t: S.Sender) {
    && t.range == s.range && s.head <= t.head
    && (forall h :: h in t.moves ==> h in s.moves || s.head <= h)
  }

  ghost predicate Listened(s: S.Sender, t: S.Sender) {
    && t.queue == s.queue && t.head == s.head && t.tail == s.tail && s.range <= t.range
    && (forall h :: h in t.moves ==> h in s.moves && t.moves[h] == s.moves[h])
  }

  /** What the packet of a pass says of the end it leaves. */
  ghost predicate Passed(n: Node, r: Produced, now: nat) {
    && SentSince(n.ost, r.node.ost, r.sections, now, 1)
    && Spoke(n.ost, r.node.ost)
    && r.node.ist.readers == n.ist.readers && r.node.ist.edge == n.ist.edge
    && (forall h :: h in n.ist.acks ==> h in r.node.ist.acks || MoveEcho(h) in r.sections)
    && (r.node.ist.edgeTime == n.ist.edgeTime || (Edge(n.ist.edge) in r.sections && r.node.ist.edgeTime == At(now + 1)))
  }

  lemma WidePass(n: Node, now: nat, cfg: Config)
    requires Able(n, cfg) && Calm(n, now, cfg) && cfg.packetSize >= 56
    ensures var r := Produce(n, now, 1, cfg);
            && Calm(r.node, now, cfg) && r.node.conn.local == n.conn.local
            && !r.leftOpen
            && |r.sections| + Work(r.node, now) <= Work(n, now)
            && Passed(n, r, now)
            && (r.sections == [] ==> Still(n, now, cfg))
  {
    hide C.Imbue, R.Imbue, S.Imbue, C.Ready, S.Overdue, S.Eligible, NoneSpent, SentSince, F.Loaded, FlightsFit, S.Sound, R.FillsFit,
         Concat, C.TimedOut, SizeOfAll, Load;
    var room := BodyRoom(cfg);
    ConnectorPass(n.conn, room, now, 1, cfg);
    var b1 := C.Imbue(n.conn, room, now, 1, cfg);
    ReceiverPass(n.ist, b1.room, now, 1);
    var b2 := R.Imbue(n.ist, b1.room, now, 1);
    SenderPass(n.ost, b2.room, now, 1, cfg);
    var b3 := S.Imbue(n.ost, b2.room, now, 1, cfg);
    var r := Produce(n, now, 1, cfg);
    assert r == Produced(n.(conn := b1.connector, ist := b2.receiver, ost := b3.sender), b1.sections + b2.sections + b3.sections, false);
    SenderSpoke(n.ost, b2.room, now, cfg);
    RL.ImbueFrame(n.ist, b1.room, now, 1);
    Widened(n.ost, b3.sender, b1.sections, b2.sections, b3.sections, now);
    ReceiverWidened(n.ist, b2.receiver, b1.sections, b2.sections, b3.sections);
    if r.sections == [] {
      Exhausted(n, now, cfg);
    }
  }

  lemma SenderSpoke(s: S.Sender, room: nat, now: nat, cfg: Config)
    requires s.head <= s.range && NoneSpent(s, now, cfg.attempts) && F.Loaded(s)
    ensures Spoke(s, S.Imbue(s, room, now, 1, cfg).sender)
  {
    hide S.Resend, S.Cut, S.EchoEdges, NoneSpent, F.Loaded, SizeOfAll;
    SL.ImbueFits(s, room, now, 1, cfg);
    SenderPass(s, room, now, 1, cfg);
    S.ResendFrame(s, room, now, 1, cfg.attempts);
    var first := S.Resend(s, room, now, 1, cfg.attempts);
    if first.ok {
      SL.CutSections(first.sender, first.room, now, 1, cfg.swarm);
      var second := S.Cut(first.sender, first.room, now, 1, cfg.swarm);
      SL.EchoEdgesFrame(second.sender, second.room);
    }
  }

  lemma Widened(s: S.Sender, t: S.Sender, a: seq<Section>, b: seq<Section>, c: seq<Section>, now: nat)
    requires SentSince(s, t, c, now, 1) && (forall x :: x in a ==> !x.Move?) && (forall x :: x in b ==> !x.Move?)
    ensures SentSince(s, t, a + b + c, now, 1)
  {
    assert forall x :: x in a + b ==> !x.Move?;
    MoreSections(s, t, c, a + b, now, 1);
  }

  lemma ReceiverWidened(r: R.Receiver, t: R.Receiver, a: seq<Section>, b: seq<Section>, c: seq<Section>)
    requires forall h :: h in r.acks ==> h in t.acks || MoveEcho(h) in b
    ensures forall h :: h in r.acks ==> h in t.acks || MoveEcho(h) in a + b + c
    ensures Edge(r.edge) in b ==> Edge(r.edge) in a + b + c
  {
  }

  /** With the whole body to itself, whatever is due fits. */
  lemma Exhausted(n: Node, now: nat, cfg: Config)
    requires Able(n, cfg) && cfg.packetSize >= 56
    requires Dues(n.ist, now) == 0
    requires S.Eligible(n.ost, BodyRoom(cfg), now) == {} && S.CutLimit(n.ost, BodyRoom(cfg), cfg.swarm) == 0
    ensures Still(n, now, cfg)
  {
    hide S.Sound, R.FillsFit, F.Loaded, Concat;
  }

  // ---------------------------------------------------------------- hearing a packet, one end

  lemma {:induction false} LinkedHears(c: C.Connector, pin: nat, secs: seq<Section>, now: nat, cfg: Config)
    requires c.status == C.Linked && Tear !in secs
    ensures var d := C.ParseAll(c, pin, secs, now, cfg);
            d.status == C.Linked && d.dead == c.dead && d.seen == c.seen && d.local == c.local && d.remote == c.remote
    decreases |secs|
  {
    if secs != [] {
      LinkedHears(C.ParseSection(c, pin, secs[0], now, cfg), pin, secs[1..], now, cfg);
    }
  }

  /** What a sender makes of a packet: echoed flights go, credit is raised to every announced edge. */
  ghost predicate SenderTook(s: S.Sender, t: S.Sender, secs: seq<Section>) {
    && t.queue == s.queue && t.head == s.head && t.tail == s.tail && s.range <= t.range
    && (forall h :: h in t.moves ==> h in s.moves && t.moves[h] == s.moves[h] && MoveEcho(h) !in secs)
    && (forall v: nat :: Edge(v) in secs ==> v <= t.range)
  }

  lemma SenderTakes(s: S.Sender, secs: seq<Section>)
    ensures SenderTook(s, S.Parse(s, secs), secs)
  {
    SL.ParseMoves(s, secs);
    SL.CreditIsGreatest(s, secs);
  }

  /** What a receiver makes of a packet: fragments are to be acknowledged, and an edge that moves is to be announced. */
  ghost predicate ReceiverTook(r: R.Receiver, t: R.Receiver, secs: seq<Section>) {
    && r.acks <= t.acks
    && (forall x :: x in secs && x.Move? ==> x.handle in t.acks)
    && EdgeStands(r, t) && r.edge <= t.edge
  }

  ghost predicate EdgeStands(r: R.Receiver, t: R.Receiver) {
    t.edgeTime == Never || t.edgeTime == At(0) || (t.edgeTime == r.edgeTime && t.edge == r.edge)
  }

  lemma {:induction false} ScanTakes(r: R.Receiver, secs: seq<Section>, cfg: Config)
    requires R.Scan(r, secs, cfg).alarms == r.alarms
    ensures var t := R.Scan(r, secs, cfg);
            && ReceiverTook(r, t, secs) && t.edge == r.edge && t.readers == r.readers
            && (t.edgeTime == Never || t.edgeTime == r.edgeTime)
    decreases |secs|
  {
    hide R.Place, R.Refuses;
    R.ScanKeepsReaders(r, secs, cfg);
    if secs != [] {
      HearFrame(r, secs[0]);
      if secs[0].Move? && R.Refuses(r, secs[0].handle, |secs[0].fragment|, cfg) {
        assert false;
      }
      ScanTakes(R.Hear(r, secs[0]), secs[1..], cfg);
    }
  }

  lemma HearFrame(r: R.Receiver, x: Section)
    ensures var t := R.Hear(r, x);
            && t.alarms == r.alarms && r.acks <= t.acks && t.edge == r.edge && t.readers == r.readers
            && (x.Move? ==> x.handle in t.acks)
            && (t.edgeTime == Never || t.edgeTime == r.edgeTime)
  {
  }

  /** No read asks for more than the receive buffer holds. */
  ghost predicate Windowed(readers: seq<R.Reader>, cfg: Config) {
    forall i :: 0 <= i < |readers| ==> readers[i].size <= cfg.receiveBuffer
  }

  function Asked(readers: seq<R.Reader>): nat {
    if readers == [] then 0 else readers[0].size + Asked(readers[1..])
  }

  /** What serving reads leaves: completed reads have returned exactly what they asked for. */
  ghost predicate Served(r: R.Receiver, t: R.Receiver, cfg: Config) {
    && t.acks == r.acks
    && EdgeStands(r, t) && r.edge <= t.edge
    && (Windowed(r.readers, cfg) ==> Windowed(t.readers, cfg))
    && |RL.Returned(r.posted)| + Asked(r.readers) == |RL.Returned(t.posted)| + Asked(t.readers)
  }

  lemma StepServes(r: R.Receiver, cfg: Config)
    requires R.FillsFit(r) && R.Available(r) && r.readers != []
    ensures Served(r, R.Step(r), cfg)
  {
    hide R.AfterPull, R.Available;
    RL.FrontFits(r);
    if R.Full(r) {
      CompleteServes(r, cfg);
    } else {
      var t := R.FillFront(r);
      RL.PullAdvances(r, r.readers[0].size - |r.readers[0].fill|);
      PullFrame(r, r.readers[0].size - |r.readers[0].fill|);
      assert t.readers[1..] == r.readers[1..];
      if R.Full(t) {
        CompleteServes(t, cfg);
      }
    }
  }

  lemma PullFrame(r: R.Receiver, max: nat)
    requires R.Available(r)
    ensures R.AfterPull(r, max).acks == r.acks && R.AfterPull(r, max).edgeTime == r.edgeTime
  {
  }

  lemma CompleteServes(r: R.Receiver, cfg: Config)
    requires r.readers != [] && R.Full(r)
    ensures Served(r, R.Complete(r), cfg)
  {
    RL.ReturnedSnoc(r.posted, R.ReadPost(r.readers[0].id, Success, r.readers[0].fill));
  }

  lemma ServedOn(r: R.Receiver, t: R.Receiver, u: R.Receiver, cfg: Config)
    requires Served(r, t, cfg) && Served(t, u, cfg)
    ensures Served(r, u, cfg)
  {
  }

  lemma {:induction false} TransmitServes(r: R.Receiver, cfg: Config)
    requires R.FillsFit(r)
    ensures Served(r, R.Transmit(r), cfg)
    decreases |r.readers|, |r.data|
  {
    hide R.FillsFit, Served, R.Step;
    R.TransmitUnfolds(r);
    ServedSelf(r, cfg);
    if R.Available(r) && r.readers != [] {
      StepServes(r, cfg);
      StepEnds(r);
      TransmitServes(R.Step(r), cfg);
      ServedOn(r, R.Step(r), R.Transmit(R.Step(r)), cfg);
    }
  }

  lemma ServedSelf(r: R.Receiver, cfg: Config)
    ensures Served(r, r, cfg)
  {
  }

  lemma StepEnds(r: R.Receiver)
    requires R.FillsFit(r) && R.Available(r) && r.readers != []
    ensures var t := R.Step(r); R.FillsFit(t) && (|t.readers| < |r.readers| || (|t.readers| == |r.readers| && |t.data| < |r.data|))
  {
  }

  lemma ReceiverTakes(r: R.Receiver, secs: seq<Section>, cfg: Config)
    requires R.FillsFit(r) && R.Scan(r, secs, cfg).alarms == r.alarms
    ensures ReceiverTook(r, R.Parse(r, secs, cfg), secs)
    ensures Windowed(r.readers, cfg) ==> Windowed(R.Parse(r, secs, cfg).readers, cfg)
  {
    hide R.FillsFit, R.Scan, R.Transmit;
    ScanTakes(r, secs, cfg);
    R.ScanKeepsFit(r, secs, cfg);
    TransmitServes(R.Scan(r, secs, cfg), cfg);
  }

  /** What hearing a packet does to an end. */
  ghost predicate Took(n: Node, m: Node, secs: seq<Section>, cfg: Config) {
    && SenderTook(n.ost, m.ost, secs)
    && ReceiverTook(n.ist, m.ist, secs)
    && (Windowed(n.ist.readers, cfg) ==> Windowed(m.ist.readers, cfg))
  }

  lemma WideHear(n: Node, p: Packet, now: nat, cfg: Config)
    requires NodeOk(n, cfg) && Calm(n, now, cfg) && C.Admits(n.conn, p.pin) && Tear !in p.sections
    requires R.Scan(n.ist, p.sections, cfg).alarms == n.ist.alarms
    ensures var m := Feed(n, p, now, cfg); Calm(m, now, cfg) && Took(n, m, p.sections, cfg) && m.conn.local == n.conn.local
  {
    hide R.Parse, S.Parse, C.ParseAll, R.Scan, S.Sound, R.FillsFit;
    LinkedHears(n.conn.(seen := At(now)), p.pin, p.sections, now, cfg);
    SenderTakes(n.ost, p.sections);
    ReceiverTakes(n.ist, p.sections, cfg);
  }

  // ---------------------------------------------------------------- one packet from end to end

  /** Both ends are established, on time, and able to repeat what is due. */
  ghost predicate Good(v: System, now: nat, cfg: Config) {
    Reached(v, cfg) && Calm(v.a.node, now, cfg) && Calm(v.b.node, now, cfg)
  }

  lemma GoodSwapped(v: System, now: nat, cfg: Config)
    requires Good(v, now, cfg)
    ensures Good(Swap(v), now, cfg)
  {
    hide Reached;
    SwapReached(v, cfg);
  }

  lemma LoadedEnd(o: S.Sender, i: R.Receiver, h: L.History, cfg: Config)
    requires L.LinkInv(o, i, h, cfg) && h.senderOpen
    ensures F.Loaded(o) && o.head <= o.range
  {
    hide L.ReceiverPart, L.FragmentsApart, L.CutCovered;
    forall k | k in o.moves ensures o.moves[k].data != [] && k + |o.moves[k].data| <= o.head {
      assert Move(k, o.moves[k].data) in h.forth;
    }
  }

  /** What the invariant says of an established end: neither it nor its peer has begun to leave. */
  lemma AbleEnd(v: System, cfg: Config)
    requires SysInv(v, cfg) && v.a.node.conn.status == C.Linked && v.b.node.conn.status == C.Linked
    ensures Able(v.a.node, cfg)
    ensures v.ab.senderOpen && v.ba.receiverOpen && Tear !in v.ab.forth
    ensures v.a.node.conn.local == v.a.trail.pin && C.Admits(v.b.node.conn, v.a.node.conn.local)
  {
    hide L.LinkInv, F.Loaded, NodeOk, FlightsFit;
    LoadedEnd(v.a.node.ost, v.b.node.ist, v.ab, cfg);
  }

  lemma NothingRefused(s: System, p: Packet, cfg: Config)
    requires SysInv(s, cfg) && p in s.b.sent && s.ba.receiverOpen
    ensures R.Scan(s.a.node.ist, p.sections, cfg).alarms == s.a.node.ist.alarms
    ensures forall x :: x in p.sections ==> x in s.ba.forth
  {
    hide Pact, L.LinkInv, NodeOk, CL.Book;
    L.ReceiverHearsAll(s.b.node.ost, s.a.node.ist, s.ba, p.sections, cfg);
  }

  /** End `a` sends what it has room for, and end `b` hears it at once. */
  lemma Say(v: System, now: nat, cfg: Config) returns (w: System, secs: seq<Section>)
    requires Good(v, now, cfg) && cfg.packetSize >= 56
    ensures Good(w, now, cfg) && Follows(v, w, cfg)
    ensures w.ab.written == v.ab.written && w.ba.written == v.ba.written
    ensures ChannelRuns.Ready(v, cfg) && Passed(v.a.node, Produced(w.a.node, secs, false), now)
    ensures Took(v.b.node, w.b.node, secs, cfg)
    ensures secs == [] ==> w == v && Still(v.a.node, now, cfg)
    ensures secs != [] ==> Work(w.a.node, now) < Work(v.a.node, now)
  {
    hide Reached, SysInv, Calm, Able, Passed, Took, Still, Work, Produce, Feed, Follows, Harmless, TrackAll, TrackJobs, NodeOk;
    ReachedInv(v, cfg);
    NodeReady(v, cfg);
    LinkedEnds(v, now, cfg);
    AbleEnd(v, cfg);
    AbleReady(v.a.node, cfg);
    WidePass(v.a.node, now, cfg);
    var r := Produce(v.a.node, now, 1, cfg);
    secs := r.sections;
    if secs == [] {
      w := v;
      FollowsSelf(v, cfg);
      NothingSaid(v.a.node, v.b.node, now, cfg);
    } else {
      var v1 := Emits(v, now, r, cfg);
      GoodSwapped(v1, now, cfg);
      w := Hears(Swap(v1), Packet(v.a.node.conn.local, secs), now, cfg);
      FollowsSwapped(Swap(v1), w, cfg);
      FollowsOn(v, v1, Swap(w), cfg);
      GoodSwapped(w, now, cfg);
      w := Swap(w);
    }
  }

  lemma LinkedEnds(v: System, now: nat, cfg: Config)
    requires Good(v, now, cfg)
    ensures v.a.node.conn.status == C.Linked && v.b.node.conn.status == C.Linked
  {
    hide Reached, NoneSpent;
  }

  lemma AbleReady(n: Node, cfg: Config)
    requires Able(n, cfg)
    ensures NodeOk(n, cfg)
  {
    hide NodeOk;
  }

  lemma NothingSaid(n: Node, m: Node, now: nat, cfg: Config)
    ensures Passed(n, Produced(n, [], false), now) && Took(m, m, [], cfg)
  {
    SinceSelf(n.ost, now, 1);
    hide SentSince;
  }

  lemma Emits(v: System, now: nat, r: Produced, cfg: Config) returns (w: System)
    requires Reached(v, cfg) && ChannelRuns.Ready(v, cfg) && v.a.node.conn.status == C.Linked && Calm(v.b.node, now, cfg)
    requires r == Produce(v.a.node, now, 1, cfg) && !r.leftOpen && r.sections != [] && Calm(r.node, now, cfg)
    ensures Good(w, now, cfg) && Follows(v, w, cfg) && w.a.node == r.node && w.b == v.b
    ensures w.ab.written == v.ab.written && w.ba.written == v.ba.written
    ensures Packet(v.a.node.conn.local, r.sections) in w.a.sent
  {
    hide Reached, Calm, Produce, Harmless, TrackJobs, NodeOk, Follows, LegalRun, Exec;
    var e := Emit(now, 1, []);
    w := StepA(v, e, cfg);
    assert Legal(v, e, cfg);
    StepReached(v, e, cfg);
    FollowsStep(v, e, cfg);
    assert r.sections + [] == r.sections;
  }

  lemma Hears(s: System, p: Packet, now: nat, cfg: Config) returns (w: System)
    requires Good(s, now, cfg) && p in s.b.sent && p.pin == s.b.node.conn.local
    ensures Good(w, now, cfg) && Follows(s, w, cfg) && w.b == s.b
    ensures w.ab.written == s.ab.written && w.ba.written == s.ba.written
    ensures Took(s.a.node, w.a.node, p.sections, cfg)
  {
    hide Reached, SysInv, Calm, Able, Feed, Harmless, TrackAll, NodeOk, Follows, Took;
    ReachedInv(s, cfg);
    NodeReady(s, cfg);
    LinkedEnds(s, now, cfg);
    Symmetric(s, cfg);
    AbleEnd(s, cfg);
    AbleEnd(Swap(s), cfg);
    NothingRefused(s, p, cfg);
    assert Tear !in p.sections;
    WideHear(s.a.node, p, now, cfg);
    var e := Deliver(p, now);
    w := StepA(s, e, cfg);
    StepReached(s, e, cfg);
    FollowsStep(s, e, cfg);
  }

  // ---------------------------------------------------------------- nothing is left behind

  /**
   * Of one direction: a flight that is not due any more has arrived and waits to be acknowledged, and an edge that is not
   * to be announced any more is known to the sender.
   */
  ghost predicate Fresh(s: S.Sender, r: R.Receiver, now: nat) {
    && (forall h :: h in s.moves ==> s.moves[h].time < now || h in r.acks)
    && (r.edgeTime == Never || r.edgeTime.NotAfter(now) || r.edge <= s.range)
  }

  /** A silent edge is always known. */
  lemma EdgeKnown(v: System, cfg: Config)
    requires SysInv(v, cfg)
    ensures v.b.node.ist.edgeTime == Never ==> v.a.node.ost.range == v.b.node.ist.edge
    ensures v.a.node.ost.range <= v.b.node.ist.edge
  {
    hide Pact, SideOk, L.SenderPart, L.ReceiverPart, L.ClosedPart, L.WireOk;
  }

  lemma SayForward(v: System, w: System, secs: seq<Section>, now: nat)
    requires Fresh(v.a.node.ost, v.b.node.ist, now)
    requires Passed(v.a.node, Produced(w.a.node, secs, false), now) && ReceiverTook(v.b.node.ist, w.b.node.ist, secs)
    ensures Fresh(w.a.node.ost, w.b.node.ist, now)
  {
    var s, t := v.a.node.ost, w.a.node.ost;
    forall h | h in t.moves ensures t.moves[h].time < now || h in w.b.node.ist.acks {
      if !(h in s.moves && t.moves[h].time == s.moves[h].time) {
        assert Move(h, t.moves[h].data) in secs;
      }
    }
  }

  lemma SayBackward(v: System, w: System, secs: seq<Section>, now: nat)
    requires Fresh(v.b.node.ost, v.a.node.ist, now) && v.a.node.ist.edge == w.a.node.ist.edge
    requires Passed(v.a.node, Produced(w.a.node, secs, false), now) && SenderTook(v.b.node.ost, w.b.node.ost, secs)
    ensures Fresh(w.b.node.ost, w.a.node.ist, now)
  {
  }

  /** End `a` has said all it had to say. */
  ghost predicate SaidAll(v: System, w: System, now: nat, cfg: Config) {
    && Good(w, now, cfg) && Follows(v, w, cfg)
    && w.ab.written == v.ab.written && w.ba.written == v.ba.written
    && Still(w.a.node, now, cfg)
    && Spoke(v.a.node.ost, w.a.node.ost) && Listened(v.b.node.ost, w.b.node.ost)
    && w.a.node.ist.readers == v.a.node.ist.readers
    && w.a.node.ist.edge == v.a.node.ist.edge && v.b.node.ist.edge <= w.b.node.ist.edge
    && (Windowed(v.b.node.ist.readers, cfg) ==> Windowed(w.b.node.ist.readers, cfg))
    && (Fresh(v.a.node.ost, v.b.node.ist, now) ==> Fresh(w.a.node.ost, w.b.node.ist, now))
    && (Fresh(v.b.node.ost, v.a.node.ist, now) ==> Fresh(w.b.node.ost, w.a.node.ist, now))
  }

  lemma SaidNothing(v: System, now: nat, cfg: Config)
    requires Good(v, now, cfg) && Still(v.a.node, now, cfg)
    ensures SaidAll(v, v, now, cfg)
  {
    hide Good, Still, Fresh, Windowed;
    FollowsSelf(v, cfg);
    hide Follows;
  }

  lemma SaidMore(v: System, w: System, secs: seq<Section>, u: System, now: nat, cfg: Config)
    requires Follows(v, w, cfg) && w.ab.written == v.ab.written && w.ba.written == v.ba.written
    requires Passed(v.a.node, Produced(w.a.node, secs, false), now) && Took(v.b.node, w.b.node, secs, cfg)
    requires SaidAll(w, u, now, cfg)
    ensures SaidAll(v, u, now, cfg)
  {
    FreshStays(v, w, secs, now, cfg);
    SpokeOn(v.a.node.ost, w.a.node.ost, u.a.node.ost);
    ListenedOn(v.b.node.ost, w.b.node.ost, u.b.node.ost, secs);
    FollowsOn(v, w, u, cfg);
    hide Good, Still, Follows, Windowed, SentSince, Fresh, Spoke, Listened, SenderTook;
  }

  lemma SpokeOn(s: S.Sender, t: S.Sender, u: S.Sender)
    ensures Spoke(s, t) && Spoke(t, u) ==> Spoke(s, u)
  {
  }

  lemma ListenedOn(s: S.Sender, t: S.Sender, u: S.Sender, secs: seq<Section>)
    requires SenderTook(s, t, secs) && Listened(t, u)
    ensures Listened(s, u)
  {
  }

  lemma FreshStays(v: System, w: System, secs: seq<Section>, now: nat, cfg: Config)
    requires Passed(v.a.node, Produced(w.a.node, secs, false), now) && Took(v.b.node, w.b.node, secs, cfg)
    ensures Fresh(v.a.node.ost, v.b.node.ist, now) ==> Fresh(w.a.node.ost, w.b.node.ist, now)
    ensures Fresh(v.b.node.ost, v.a.node.ist, now) ==> Fresh(w.b.node.ost, w.a.node.ist, now)
  {
    if Fresh(v.a.node.ost, v.b.node.ist, now) {
      SayForward(v, w, secs, now);
    }
    if Fresh(v.b.node.ost, v.a.node.ist, now) {
      SayBackward(v, w, secs, now);
    }
  }

  /** End `a` goes on sending until it has nothing left to send. */
  lemma {:induction false} SayAll(v: System, now: nat, cfg: Config) returns (w: System)
    requires Good(v, now, cfg) && cfg.packetSize >= 56
    ensures SaidAll(v, w, now, cfg)
    decreases Work(v.a.node, now)
  {
    hide Good, Still, Passed, Took, SaidAll, Follows, Work, ChannelRuns.Ready;
    var secs;
    w, secs := Say(v, now, cfg);
    if secs == [] {
      SaidNothing(v, now, cfg);
    } else {
      var u := SayAll(w, now, cfg);
      SaidMore(v, w, secs, u, now, cfg);
      w := u;
    }
  }

  // ---------------------------------------------------------------- a round

  /** After both ends have said all: everything sent has been acknowledged, and the sender has all the credit there is. */
  ghost predicate Settled(v: System, now: nat, cfg: Config) {
    && Good(v, now, cfg)
    && Fresh(v.a.node.ost, v.b.node.ist, now)
    && v.a.node.ost.moves == map[]
    && v.a.node.ost.range == v.b.node.ist.edge
  }

  /** What a round is for: if something could be cut when it began, something has been cut. */
  ghost predicate Moved(v: System, w: System) {
    && v.a.node.ost.head <= w.a.node.ost.head
    && (v.a.node.ost.moves == map[] && v.a.node.ost.queue != [] && v.a.node.ost.head < v.a.node.ost.range ==>
          v.a.node.ost.head < w.a.node.ost.head)
  }

  lemma Round(v: System, now: nat, cfg: Config) returns (w: System)
    requires Good(v, now, cfg) && Fresh(v.a.node.ost, v.b.node.ist, now)
    requires cfg.packetSize >= 56 && cfg.swarm > 0
    ensures Settled(w, now, cfg) && Follows(v, w, cfg) && w.ab.written == v.ab.written && Moved(v, w)
    ensures v.b.node.ist.edge <= w.b.node.ist.edge
    ensures Windowed(v.b.node.ist.readers, cfg) ==> Windowed(w.b.node.ist.readers, cfg)
  {
    hide Good, Still, Fresh, Follows, Windowed, Spoke, Listened, SaidAll;
    var v1 := SayAll(v, now, cfg);
    SaidGood(v, v1, now, cfg);
    GoodSwapped(v1, now, cfg);
    var s2 := SayAll(Swap(v1), now, cfg);
    w := Swap(s2);
    BothSaid(v, v1, s2, now, cfg);
    BothMoved(v, v1, s2, now, cfg);
  }

  lemma SaidGood(v: System, w: System, now: nat, cfg: Config)
    requires SaidAll(v, w, now, cfg)
    ensures Good(w, now, cfg)
  {
    hide Good, Still, Fresh, Follows, Windowed, Spoke, Listened;
  }

  lemma BothSaid(v: System, v1: System, s2: System, now: nat, cfg: Config)
    requires Good(v, now, cfg) && Fresh(v.a.node.ost, v.b.node.ist, now)
    requires SaidAll(v, v1, now, cfg) && SaidAll(Swap(v1), s2, now, cfg)
    ensures var w := Swap(s2);
            && Settled(w, now, cfg) && Follows(v, w, cfg) && w.ab.written == v.ab.written
            && v.b.node.ist.edge <= w.b.node.ist.edge
            && (Windowed(v.b.node.ist.readers, cfg) ==> Windowed(w.b.node.ist.readers, cfg))
  {
    hide Good, Still, Fresh, Follows, Windowed, Spoke, Listened;
    var w := Swap(s2);
    GoodSwapped(s2, now, cfg);
    FollowsSwapped(Swap(v1), s2, cfg);
    FollowsOn(v, v1, w, cfg);
    GoodInv(w, now, cfg);
    hide SysInv;
    EdgeKnown(w, cfg);
    AllAcknowledged(v1.a.node, w.a.node, w.b.node, now, cfg);
  }

  lemma BothMoved(v: System, v1: System, s2: System, now: nat, cfg: Config)
    requires Good(v, now, cfg) && cfg.swarm > 0
    requires SaidAll(v, v1, now, cfg) && SaidAll(Swap(v1), s2, now, cfg)
    ensures Moved(v, Swap(s2))
  {
    hide Good, Still, Fresh, Follows, Windowed, Spoke, Listened, SysInv;
    GoodInv(v, now, cfg);
    GoodInv(v1, now, cfg);
    CutSomething(v, v1, now, cfg);
    HeadKept(v1.a.node.ost, s2.b.node.ost);
  }

  lemma HeadKept(s: S.Sender, t: S.Sender)
    requires Listened(s, t)
    ensures t.head == s.head
  {
  }

  lemma GoodInv(v: System, now: nat, cfg: Config)
    requires Good(v, now, cfg)
    ensures SysInv(v, cfg) && v.a.node.conn.status == C.Linked && v.b.node.conn.status == C.Linked
  {
    hide Reached, SysInv, NoneSpent;
    ReachedInv(v, cfg);
  }

  lemma AllAcknowledged(n: Node, m: Node, peer: Node, now: nat, cfg: Config)
    requires Still(n, now, cfg) && Listened(n.ost, m.ost) && Still(peer, now, cfg) && Fresh(m.ost, peer.ist, now)
    requires peer.ist.edgeTime == Never ==> m.ost.range == peer.ist.edge
    requires m.ost.range <= peer.ist.edge
    ensures m.ost.moves == map[] && m.ost.range == peer.ist.edge
  {
    assert forall h :: h in m.ost.moves ==> h in S.Overdue(n.ost, now);
  }

  /** The open sender against the written stream. */
  lemma SenderSpan(v: System, cfg: Config)
    requires SysInv(v, cfg) && v.a.node.conn.status == C.Linked && v.b.node.conn.status == C.Linked
    ensures var s := v.a.node.ost;
            && s.head + |Concat(s.queue)| == s.tail == |v.ab.written|
            && S.NoEmptyChunk(s.queue) && F.Loaded(s) && s.head == v.ab.cut
  {
    hide Pact, L.ReceiverPart, L.FragmentsApart, L.CutCovered, F.Loaded, Concat, S.NoEmptyChunk, NodeOk, L.SharedPart, L.LinkInv;
    AbleEnd(v, cfg);
    SpanOpen(v.a.node.ost, v.b.node.ist, v.ab, cfg);
    LoadedEnd(v.a.node.ost, v.b.node.ist, v.ab, cfg);
  }

  lemma SpanOpen(o: S.Sender, i: R.Receiver, h: L.History, cfg: Config)
    requires L.LinkInv(o, i, h, cfg) && h.senderOpen
    ensures o.head + |Concat(o.queue)| == o.tail == |h.written| && S.NoEmptyChunk(o.queue) && o.head == h.cut
  {
    hide L.ReceiverPart, L.SharedPart;
  }

  lemma CutSomething(v: System, w: System, now: nat, cfg: Config)
    requires SysInv(v, cfg) && SysInv(w, cfg) && w.ab.written == v.ab.written
    requires v.a.node.conn.status == C.Linked && v.b.node.conn.status == C.Linked
    requires w.a.node.conn.status == C.Linked && w.b.node.conn.status == C.Linked
    requires Spoke(v.a.node.ost, w.a.node.ost) && Still(w.a.node, now, cfg) && cfg.swarm > 0
    ensures Moved(v, w)
  {
    hide SysInv, Concat;
    SenderSpan(v, cfg);
    SenderSpan(w, cfg);
    var s, t := v.a.node.ost, w.a.node.ost;
    if s.moves == map[] && s.queue != [] && s.head < s.range && s.head == t.head {
      SomethingQueued(s.queue);
      NothingQueued(t.queue);
    }
  }

  lemma SomethingQueued(queue: seq<seq<byte>>)
    requires queue != [] && S.NoEmptyChunk(queue)
    ensures |Concat(queue)| > 0
  {
  }

  lemma NothingQueued(queue: seq<seq<byte>>)
    ensures queue == [] ==> |Concat(queue)| == 0
  {
  }

  // ---------------------------------------------------------------- reading

  lemma AskedSnoc(readers: seq<R.Reader>, x: R.Reader)
    ensures Asked(readers + [x]) == Asked(readers) + x.size
    decreases |readers|
  {
    if readers == [] {
      assert readers + [x] == [x];
      assert Asked([x]) == x.size + Asked([]);
    } else {
      assert (readers + [x])[1..] == readers[1..] + [x];
      AskedSnoc(readers[1..], x);
    }
  }

  lemma AppendServes(r: R.Receiver, size: nat, id: nat, cfg: Config)
    requires R.FillsFit(r) && RL.ReaderInv(r, cfg)
    ensures var t := R.Append(r, size, id);
            && t.acks == r.acks && EdgeStands(r, t) && r.edge <= t.edge
            && |RL.Returned(r.posted)| + Asked(r.readers) + size == |RL.Returned(t.posted)| + Asked(t.readers)
            && (Windowed(r.readers, cfg) && size <= cfg.receiveBuffer ==> Windowed(t.readers, cfg))
  {
    var q := r.(readers := r.readers + [R.Reader(size, [], id)]);
    RL.EnqueueKeeps(r, size, id, cfg);
    AskedSnoc(r.readers, R.Reader(size, [], id));
    hide RL.ReaderInv, RL.Returned;
    RL.Fits(q, cfg);
    TransmitServes(q, cfg);
  }

  /** A read called at end `b`. */
  lemma Reads(v: System, size: nat, now: nat, cfg: Config) returns (w: System)
    requires Good(v, now, cfg)
    ensures Good(w, now, cfg) && Follows(v, w, cfg) && w.a == v.a && w.ab == v.ab
    ensures R.FillsFit(v.b.node.ist) && w.b.node == v.b.node.(ist := R.Append(v.b.node.ist, size, 0))
  {
    hide Reached, Calm, NodeOk, Follows, R.Append, Harmless;
    GoodSwapped(v, now, cfg);
    var s := Swap(v);
    GoodReady(s, now, cfg);
    var e := CallRead(size, 0);
    var t := StepA(s, e, cfg);
    StepReached(s, e, cfg);
    FollowsStep(s, e, cfg);
    FollowsSwapped(s, t, cfg);
    CalmReads(s.a.node, t.a.node, now, cfg);
    w := Swap(t);
    SwapReached(t, cfg);
  }

  lemma GoodReady(s: System, now: nat, cfg: Config)
    requires Good(s, now, cfg)
    ensures ChannelRuns.Ready(s, cfg) && s.a.node.conn.status == C.Linked && R.FillsFit(s.a.node.ist)
  {
    hide SysInv, Reached;
    GoodInv(s, now, cfg);
    NodeReady(s, cfg);
  }

  lemma CalmReads(n: Node, m: Node, now: nat, cfg: Config)
    requires Calm(n, now, cfg) && m.conn == n.conn && m.ost == n.ost
    ensures Calm(m, now, cfg)
  {
  }

  // ---------------------------------------------------------------- what is settled is at the receiver

  /** With nothing in flight, every byte cut so far is at the receiver without a gap. */
  lemma NoGap(o: S.Sender, i: R.Receiver, h: L.History, cfg: Config)
    requires L.LinkInv(o, i, h, cfg) && h.senderOpen && h.receiverOpen && o.moves == map[]
    ensures i.head <= h.cut && (i.head < h.cut ==> R.Available(i))
  {
    if i.head < h.cut {
      assert L.InFragment(h.forth, i.head);
      var x :| x in h.forth && x.Move? && x.handle <= i.head < L.End(x);
      assert L.Present(i.data, i.head, x);
      assert i.head in i.data.Keys;
    }
  }

  /** What the invariant says of the receiving end once nothing is in flight. */
  lemma ReceiverSpan(v: System, now: nat, cfg: Config)
    requires Good(v, now, cfg) && v.a.node.ost.moves == map[]
    ensures var r := v.b.node.ist;
            && r.edge == cfg.receiveBuffer + |RL.Returned(r.posted)|
            && r.head == |RL.Delivered(r)| <= v.a.node.ost.head
            && RL.Delivered(r) <= v.ab.written
            && RL.ReaderInv(r, cfg)
            && (r.readers != [] ==> r.head == v.a.node.ost.head)
  {
    hide Good, Pact, SideOk, L.SenderPart, L.LinkInv;
    GoodInv(v, now, cfg);
    SenderSpan(v, cfg);
    BothOpen(v, cfg);
    NoGap(v.a.node.ost, v.b.node.ist, v.ab, cfg);
    QuietOpen(v.a.node.ost, v.b.node.ist, v.ab, cfg);
  }

  lemma BothOpen(v: System, cfg: Config)
    requires SysInv(v, cfg) && v.a.node.conn.status == C.Linked && v.b.node.conn.status == C.Linked
    ensures v.ab.senderOpen && v.ab.receiverOpen
    ensures L.LinkInv(v.a.node.ost, v.b.node.ist, v.ab, cfg)
  {
    hide Pact, L.LinkInv;
  }

  lemma QuietOpen(o: S.Sender, i: R.Receiver, h: L.History, cfg: Config)
    requires L.LinkInv(o, i, h, cfg) && h.receiverOpen
    ensures RL.ReaderInv(i, cfg) && RL.Quiet(i) && RL.Delivered(i) <= h.written
    ensures i.edge == cfg.receiveBuffer + |RL.Returned(i.posted)| && i.head == |RL.Delivered(i)|
  {
    hide L.SenderPart, L.ReasmOk;
  }

  lemma FrontFill(r: R.Receiver, cfg: Config)
    requires RL.ReaderInv(r, cfg)
    ensures r.head == |RL.Returned(r.posted)| + if r.readers == [] then 0 else |r.readers[0].fill|
    ensures r.readers != [] && r.readers[0].fill != [] ==> |r.readers[0].fill| < r.readers[0].size
  {
    RL.FrontOnly(r, cfg);
  }

  /** A read that asks for no more than the buffer holds is never stuck on a full window. */
  lemma NotStuck(v: System, now: nat, cfg: Config)
    requires Good(v, now, cfg) && v.a.node.ost.moves == map[] && Windowed(v.b.node.ist.readers, cfg) && cfg.receiveBuffer > 0
    requires v.a.node.ost.head >= v.b.node.ist.edge
    ensures v.b.node.ist.readers == []
  {
    hide Good;
    ReceiverSpan(v, now, cfg);
    FrontFill(v.b.node.ist, cfg);
  }

  /** When the window is full and no read waits, a read of the whole window opens it. */
  lemma WindowOpens(v: System, now: nat, cfg: Config) returns (w: System)
    requires Settled(v, now, cfg) && Windowed(v.b.node.ist.readers, cfg)
    requires v.a.node.ost.head == v.a.node.ost.range && cfg.receiveBuffer > 0
    ensures Good(w, now, cfg) && Follows(v, w, cfg) && w.a == v.a && w.ab == v.ab
    ensures Fresh(w.a.node.ost, w.b.node.ist, now) && Windowed(w.b.node.ist.readers, cfg)
    ensures v.b.node.ist.edge < w.b.node.ist.edge
  {
    hide Good, Follows, Fresh, R.Append, RL.ReaderInv;
    NotStuck(v, now, cfg);
    w := Reads(v, cfg.receiveBuffer, now, cfg);
    ReceiverSpan(v, now, cfg);
    AppendServes(v.b.node.ist, cfg.receiveBuffer, 0, cfg);
    FreshReads(v.a.node.ost, v.b.node.ist, w.b.node.ist, now);
    ReceiverSpan(w, now, cfg);
    if w.b.node.ist.edge == v.b.node.ist.edge {
      NotStuck(w, now, cfg);
    }
  }

  lemma FreshReads(s: S.Sender, r: R.Receiver, t: R.Receiver, now: nat)
    requires Fresh(s, r, now) && t.acks == r.acks && EdgeStands(r, t)
    ensures Fresh(s, t, now)
  {
  }

  // ---------------------------------------------------------------- to the end

  lemma Advance(v: System, now: nat, cfg: Config) returns (w: System)
    requires Settled(v, now, cfg) && Windowed(v.b.node.ist.readers, cfg) && v.a.node.ost.head < |v.ab.written|
    requires cfg.packetSize >= 56 && cfg.swarm > 0 && cfg.receiveBuffer > 0
    ensures Settled(w, now, cfg) && Windowed(w.b.node.ist.readers, cfg) && Follows(v, w, cfg) && w.ab.written == v.ab.written
    ensures v.a.node.ost.head < w.a.node.ost.head
  {
    hide Good, Follows, Fresh, Windowed;
    Unsent(v, now, cfg);
    if v.a.node.ost.head < v.a.node.ost.range {
      w := Round(v, now, cfg);
    } else {
      var v1 := WindowOpens(v, now, cfg);
      var v2 := Round(v1, now, cfg);
      FollowsOn(v, v1, v2, cfg);
      w := v2;
      if v2.a.node.ost.head == v.a.node.ost.head {
        Unsent(v2, now, cfg);
        w := Round(v2, now, cfg);
        FollowsOn(v, v2, w, cfg);
      }
    }
  }

  /** What has not been cut is queued, and the head never exceeds the credit. */
  lemma Unsent(v: System, now: nat, cfg: Config)
    requires Good(v, now, cfg)
    ensures v.a.node.ost.head <= v.a.node.ost.range && v.a.node.ost.head <= |v.ab.written|
    ensures v.a.node.ost.head < |v.ab.written| ==> v.a.node.ost.queue != []
  {
    hide Good, SysInv, Concat, Able;
    GoodInv(v, now, cfg);
    SenderSpan(v, cfg);
    NothingQueued(v.a.node.ost.queue);
    AbleEnd(v, cfg);
    AbleCredit(v.a.node, cfg);
  }

  lemma AbleCredit(n: Node, cfg: Config)
    requires Able(n, cfg)
    ensures n.ost.head <= n.ost.range
  {
  }

  lemma {:induction false} CutEverything(v: System, now: nat, cfg: Config) returns (w: System)
    requires Settled(v, now, cfg) && Windowed(v.b.node.ist.readers, cfg)
    requires cfg.packetSize >= 56 && cfg.swarm > 0 && cfg.receiveBuffer > 0
    ensures Settled(w, now, cfg) && Windowed(w.b.node.ist.readers, cfg) && Follows(v, w, cfg) && w.ab.written == v.ab.written
    ensures w.a.node.ost.head == |w.ab.written|
    decreases |v.ab.written| - v.a.node.ost.head
  {
    hide Good, Follows, Fresh, Windowed;
    Unsent(v, now, cfg);
    if v.a.node.ost.head == |v.ab.written| {
      w := v;
      FollowsSelf(v, cfg);
    } else {
      var u := Advance(v, now, cfg);
      w := CutEverything(u, now, cfg);
      FollowsOn(v, u, w, cfg);
    }
  }

  lemma {:induction false} TilesEnd(ws: seq<S.Writer>, from: nat, to: nat)
    requires SL.Tiles(ws, from, to)
    ensures from <= to && (ws != [] ==> ws[0].head + ws[0].size <= to)
    decreases |ws|
  {
    if ws != [] {
      TilesEnd(ws[1..], from + ws[0].size, to);
    }
  }

  /** With everything cut and nothing in flight, no write waits. */
  lemma AllReported(v: System, now: nat, cfg: Config)
    requires Good(v, now, cfg) && v.a.node.ost.moves == map[] && v.a.node.ost.head == |v.ab.written|
    ensures v.a.node.ost.writers == []
  {
    hide Good, Pact, SideOk, L.LinkInv;
    GoodInv(v, now, cfg);
    BothOpen(v, cfg);
    WritersDone(v.a.node.ost, v.b.node.ist, v.ab, cfg);
  }

  lemma WritersDone(o: S.Sender, i: R.Receiver, h: L.History, cfg: Config)
    requires L.LinkInv(o, i, h, cfg) && h.senderOpen && o.moves == map[] && o.head == |h.written|
    ensures o.writers == []
  {
    hide L.SharedPart, L.ReceiverPart, L.ClosedPart, L.FlightsKnown, S.Sound, SL.FlightsOk;
    TilesEnd(o.writers, SL.Total(o.posted), o.tail);
  }

  /** One more read, if none waits, takes whatever is left. */
  lemma Finish(v: System, now: nat, cfg: Config) returns (w: System)
    requires Settled(v, now, cfg) && v.a.node.ost.head == |v.ab.written|
    ensures Good(w, now, cfg) && Follows(v, w, cfg) && w.ab.written == v.ab.written && w.a.node.ost.writers == []
    ensures RL.Delivered(w.b.node.ist) == w.ab.written
  {
    hide Good, Follows, Fresh, Windowed, R.Append, RL.ReaderInv, RL.Delivered;
    ReceiverSpan(v, now, cfg);
    AllReported(v, now, cfg);
    w := v;
    FollowsSelf(v, cfg);
    if v.b.node.ist.readers == [] {
      var n := |v.ab.written| - v.b.node.ist.head;
      w := Reads(v, n, now, cfg);
      AppendServes(v.b.node.ist, n, 0, cfg);
      ReceiverSpan(w, now, cfg);
      FrontFill(v.b.node.ist, cfg);
      FrontFill(w.b.node.ist, cfg);
    }
  }

  /**
   * Progress. From every established connection, at a time when neither end is timed out and no due flight has used up its
   * attempts, when what is in flight is due or waits at the peer to be acknowledged, the edge is due or known, and no read
   * asks for more than the receive buffer: some legal run goes on until every written byte has been delivered in order and
   * every write has been settled.
   */
  lemma EveryByteArrives(v: System, now: nat, cfg: Config) returns (w: System)
    requires Reached(v, cfg) && Calm(v.a.node, now, cfg) && Calm(v.b.node, now, cfg)
    requires Fresh(v.a.node.ost, v.b.node.ist, now) && Windowed(v.b.node.ist.readers, cfg)
    requires cfg.packetSize >= 56 && cfg.swarm > 0 && cfg.receiveBuffer > 0
    ensures Follows(v, w, cfg) && Reached(w, cfg) && Calm(w.a.node, now, cfg) && Calm(w.b.node, now, cfg)
    ensures w.ab.written == v.ab.written
    ensures RL.Delivered(w.b.node.ist) == w.ab.written && w.a.node.ost.writers == []
  {
    hide Reached, Calm, Fresh, Windowed, Follows;
    var v1 := Round(v, now, cfg);
    var v2 := CutEverything(v1, now, cfg);
    w := Finish(v2, now, cfg);
    FollowsOn(v, v1, v2, cfg);
    FollowsOn(v, v2, w, cfg);
  }

  /**
   * The condition on reads is needed: a front read that asks for more than the receive buffer never holds more than the
   * buffer's worth of bytes, so it is never completed as long as the channel is open.
   */
  lemma OversizedReadStalls(v: System, cfg: Config)
    requires Reached(v, cfg) && v.ab.senderOpen && v.ab.receiverOpen
    requires v.b.node.ist.readers != [] && v.b.node.ist.readers[0].size > cfg.receiveBuffer
    ensures |v.b.node.ist.readers[0].fill| <= cfg.receiveBuffer && !R.Full(v.b.node.ist)
  {
    hide Reached, SysInv, RL.ReaderInv;
    ReachedInv(v, cfg);
    EdgeAhead(v, cfg);
    FrontFill(v.b.node.ist, cfg);
  }

  lemma EdgeAhead(v: System, cfg: Config)
    requires SysInv(v, cfg) && v.ab.senderOpen && v.ab.receiverOpen
    ensures var r := v.b.node.ist;
            RL.ReaderInv(r, cfg) && r.head <= r.edge && r.edge == cfg.receiveBuffer + |RL.Returned(r.posted)|
  {
    hide Pact, SideOk;
  }
}
