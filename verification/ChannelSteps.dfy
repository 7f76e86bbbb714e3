/** Runs built event by event, for any configuration: what one event does, and how a connection comes about. */
module ChannelSteps {
  import opened Containers
  import opened Protocol
  import opened Channel
  import opened ChannelRuns
  import opened ChannelLaws
  import opened ChannelTheorems
  import opened Handshake
  import C = Connecting
  import S = Sending
  import R = Receiving
  import CL = ConnectorLaws
  import L = StreamLink

  // ---------------------------------------------------------------- one event at a time

  lemma Called(v: System, e: Event, cfg: Config) returns (w: System)
    requires Reached(v, cfg) && (e.CallConnect? || e.CallAccept? || e.CallShutdown? || e.CallRead? || e.CallWrite?)
    requires ChannelRuns.Ready(v, cfg) && Legal(v, e, cfg)
    ensures w == StepA(v, e, cfg) && Reached(w, cfg) && ChannelRuns.Ready(w, cfg) && ChannelRuns.Ready(Swap(w), cfg)
    ensures w.b == v.b && w.a.sent == v.a.sent && w.a.trail.role == v.a.trail.role
    ensures w.ba == v.ba && (!e.CallWrite? ==> w.ab == v.ab) && w.a.node == NodeAfter(v.a.node, e, cfg)
  {
    hide Reached, NodeOk, L.AfterWrite;
    w := StepA(v, e, cfg);
    StepReached(v, e, cfg);
    BothReady(w, cfg);
    hide Legal, Ready, Track;
  }

  /** The node an event leaves. */
  function NodeAfter(n: Node, e: Event, cfg: Config): Node
    requires NodeOk(n, cfg)
  {
    match e
    case CallConnect(id, pin, now) => Channel.Connect(n, id, pin, now, cfg)
    case CallAccept(id, pin, now) => Channel.Accept(n, id, pin, now, cfg)
    case CallShutdown(id, now) => Channel.Shutdown(n, id, now, cfg)
    case CallWrite(buffer, id) => Channel.Write(n, buffer, id, cfg)
    case CallRead(size, id) => Channel.Read(n, size, id, cfg)
    case Deliver(p, now) => Feed(n, p, now, cfg)
    case Emit(now, repeat, _) => Produce(n, now, repeat, cfg).node
    case Close(code) => Mistake(n, code)
  }

  lemma BothReady(w: System, cfg: Config)
    requires Reached(w, cfg)
    ensures ChannelRuns.Ready(w, cfg) && ChannelRuns.Ready(Swap(w), cfg)
  {
    hide Reached, SysInv, NodeOk;
    ReachedInv(w, cfg);
    NodeReady(w, cfg);
    SwapReached(w, cfg);
    ReachedInv(Swap(w), cfg);
    NodeReady(Swap(w), cfg);
  }

  lemma Emitted(v: System, now: nat, repeat: nat, r: Produced, cfg: Config) returns (w: System)
    requires Reached(v, cfg) && ChannelRuns.Ready(v, cfg)
    requires v.a.node.conn.status != C.Initial && v.a.node.conn.status != C.Finished
    requires r == Produce(v.a.node, now, repeat, cfg) && !r.leftOpen && r.sections != []
    ensures w == StepA(v, Emit(now, repeat, []), cfg) && Reached(w, cfg)
    ensures ChannelRuns.Ready(w, cfg) && ChannelRuns.Ready(Swap(w), cfg)
    ensures w.a.node == r.node && w.b == v.b && w.a.trail.role == v.a.trail.role
    ensures w.a.sent == v.a.sent + {Packet(v.a.node.conn.local, r.sections)}
    ensures w.ab.written == v.ab.written && w.ba.written == v.ba.written
  {
    hide Reached, NodeOk, Produce, TrackJobs, Harmless;
    var e := Emit(now, repeat, []);
    w := StepA(v, e, cfg);
    StepReached(v, e, cfg);
    BothReady(w, cfg);
    RoleStays(v, e, cfg);
    hide Legal, ChannelRuns.Ready, SysInv;
  }

  lemma RoleStays(v: System, e: Event, cfg: Config)
    requires Reached(v, cfg) && ChannelRuns.Ready(v, cfg) && Legal(v, e, cfg)
    ensures StepA(v, e, cfg).a.trail.role == v.a.trail.role
  {
    hide Reached, SysInv, StepA, Legal, ChannelRuns.Ready;
    ReachedInv(v, cfg);
    StepGrows(v, e, cfg);
  }

  lemma Heard(v: System, p: Packet, now: nat, cfg: Config) returns (w: System)
    requires Reached(v, cfg) && ChannelRuns.Ready(v, cfg) && p in v.b.sent && C.Admits(v.a.node.conn, p.pin)
    ensures w == StepA(v, Deliver(p, now), cfg) && Reached(w, cfg)
    ensures ChannelRuns.Ready(w, cfg) && ChannelRuns.Ready(Swap(w), cfg)
    ensures w.a.node == Feed(v.a.node, p, now, cfg) && w.b == v.b && w.a.sent == v.a.sent && w.a.trail.role == v.a.trail.role
    ensures w.ab.written == v.ab.written && w.ba.written == v.ba.written
  {
    hide Reached, NodeOk, Feed, TrackAll, Harmless;
    var e := Deliver(p, now);
    w := StepA(v, e, cfg);
    StepReached(v, e, cfg);
    BothReady(w, cfg);
    RoleStays(v, e, cfg);
    hide Legal, ChannelRuns.Ready, SysInv;
  }

  // ---------------------------------------------------------------- the parts of a packet

  lemma NoJobs(c: C.Connector, room: nat, now: nat, repeat: nat, cfg: Config)
    requires C.JobsOk(c) && !C.TimedOut(c, now, cfg) && C.Ready(c, now) == {}
    ensures C.Imbue(c, room, now, repeat, cfg) == C.Burst(c, [], room)
  {
  }

  lemma OneJob(c: C.Connector, k: nat, room: nat, now: nat, repeat: nat, cfg: Config)
    requires C.JobsOk(c) && !C.TimedOut(c, now, cfg) && C.Ready(c, now) == {k} && room >= 12
    ensures 2 <= k <= 7
    ensures var x := C.JobSection(c, k, now);
            C.Imbue(c, room, now, repeat, cfg) == C.Burst(C.AfterJob(c, k, now, repeat), [x], room - SizeOf(x))
  {
    assert k in C.Ready(c, now);
    assert MinOf({k}) == k;
    C.ReadyShrinks(c, k, now, repeat);
    CL.JobsShrink(c, k, now, repeat);
    assert {k} - {k} == {};
    hide C.AfterJob, C.Ready, C.TimedOut;
    JobsUnfold(c, room, now, repeat);
    JobsUnfold(C.AfterJob(c, k, now, repeat), room - SizeOf(C.JobSection(c, k, now)), now, repeat);
  }

  lemma JobsUnfold(c: C.Connector, room: nat, now: nat, repeat: nat)
    requires C.JobsOk(c) && forall k :: k in C.Ready(c, now) ==> SizeOf(C.JobSection(c, k, now)) <= room
    ensures C.Ready(c, now) != {} ==> C.JobsOk(C.AfterJob(c, MinOf(C.Ready(c, now)), now, repeat))
    ensures C.RunJobs(c, room, now, repeat) ==
            if room < SECTION_HEADER || C.Ready(c, now) == {} then C.Burst(c, [], room)
            else
              var k := MinOf(C.Ready(c, now));
              var x := C.JobSection(c, k, now);
              var b := C.RunJobs(C.AfterJob(c, k, now, repeat), room - SizeOf(x), now, repeat);
              b.(sections := [x] + b.sections)
  {
    if C.Ready(c, now) != {} {
      var k := MinOf(C.Ready(c, now));
      assert k in C.Ready(c, now);
      CL.JobsShrink(c, k, now, repeat);
    }
    hide C.AfterJob;
  }

  /** A sender that has nothing due. */
  lemma NothingRepeated(s: S.Sender, room: nat, now: nat, repeat: nat, limit: nat)
    requires forall h :: h in s.moves ==> s.moves[h].time >= now
    ensures S.Resend(s, room, now, repeat, limit) == S.Burst(s, [], room, true)
  {
    assert S.Eligible(s, room, now) == {};
    S.ResendUnfolds(s, room, now, repeat, limit);
  }

  /** Two flights are due: the older one is repeated, then the younger one is given up. */
  lemma GivesUpBehind(s: S.Sender, h: nat, k: nat, room: nat, now: nat, repeat: nat, cfg: Config)
    requires h < k && s.moves.Keys == {h, k} && s.head <= s.range && s.moves[h].time < now && s.moves[k].time < now
    requires |s.moves[h].data| == |s.moves[k].data| == 1 && room >= 28
    requires s.moves[h].attempt != cfg.attempts && s.moves[k].attempt == cfg.attempts
    ensures var b := S.Imbue(s, room, now, repeat, cfg); !b.ok && b.sections == [Move(h, s.moves[h].data)]
  {
    hide S.Cut, S.Resend, S.EchoEdges, S.Eligible;
    var t := S.Repeated(s, h, now + repeat);
    BothEligible(s, h, k, room, now);
    OneEligible(t, h, k, room - 13, now);
    S.ResendUnfolds(s, room, now, repeat, cfg.attempts);
    S.ResendUnfolds(t, room - 13, now, repeat, cfg.attempts);
  }

  lemma BothEligible(s: S.Sender, h: nat, k: nat, room: nat, now: nat)
    requires h < k && s.moves.Keys == {h, k} && s.moves[h].time < now && s.moves[k].time < now
    requires |s.moves[h].data| == |s.moves[k].data| == 1 && room >= 13
    ensures S.Eligible(s, room, now) == {h, k} && MinOf({h, k}) == h
  {
    assert S.Eligible(s, room, now) == {h, k};
  }

  lemma OneEligible(t: S.Sender, h: nat, k: nat, room: nat, now: nat)
    requires h < k && t.moves.Keys == {h, k} && t.moves[h].time >= now && t.moves[k].time < now
    requires |t.moves[k].data| == 1 && room >= 13
    ensures S.Eligible(t, room, now) == {k} && MinOf({k}) == k
  {
    assert S.Eligible(t, room, now) == {k};
  }

  lemma NothingCut(s: S.Sender, room: nat, now: nat, repeat: nat, cfg: Config)
    requires s.head <= s.range && s.queue == []
    ensures S.Cut(s, room, now, repeat, cfg.swarm) == S.Burst(s, [], room, true)
  {
    S.CutUnfolds(s, room, now, repeat, cfg.swarm);
  }

  lemma NoEchoes(s: S.Sender, room: nat)
    requires s.acks == {} || room < 12
    ensures S.EchoEdges(s, room) == S.Burst(s, [], room, true)
  {
  }

  lemma OneEcho(s: S.Sender, v: nat, room: nat)
    requires s.acks == {v} && room >= 12
    ensures S.EchoEdges(s, room) == S.Burst(s.(acks := {}), [EdgeEcho(v)], room - 12, true)
  {
    assert MinOf({v}) == v;
    assert s.acks - {v} == {};
    S.EchoEdgesUnfolds(s, room);
    NoEchoes(s.(acks := {}), room - 12);
  }

  /** A receiver that has no fragment to acknowledge and announces its edge, or does not. */
  lemma JustEdge(r: R.Receiver, room: nat, now: nat, repeat: nat)
    requires r.acks == {} && room >= 12
    ensures R.Imbue(r, room, now, repeat) ==
            if r.edgeTime.NotAfter(now) then R.Burst(r.(edgeTime := At(now + repeat)), [Edge(r.edge)], room - 12)
            else R.Burst(r, [], room)
  {
    R.EchoMovesUnfolds(r, room);
    assert [] + [Edge(r.edge)] == [Edge(r.edge)];
  }

  lemma OneAck(r: R.Receiver, h: nat, room: nat, now: nat, repeat: nat)
    requires r.acks == {h} && room >= 12 && !r.edgeTime.NotAfter(now)
    ensures R.Imbue(r, room, now, repeat) == R.Burst(r.(acks := {}), [MoveEcho(h)], room - 12)
  {
    assert MinOf({h}) == h;
    assert r.acks - {h} == {};
    R.EchoMovesUnfolds(r, room);
    R.EchoMovesUnfolds(r.(acks := {}), room - 12);
  }

  // ---------------------------------------------------------------- connecting

  /** What a caller sends first: a link request and its edge. */
  function Hello(cfg: Config): Packet { Packet(7, [Link, Edge(cfg.receiveBuffer)]) }

  /** What a listener answers. */
  function Welcome(cfg: Config): Packet {
    Packet(9, [LinkEcho, Edge(cfg.receiveBuffer), EdgeEcho(cfg.receiveBuffer)])
  }

  function Calling(cfg: Config): C.Connector {
    C.Connector(C.Connecting, 7, 0, map[C.LINK := 2], Never, At(1 + cfg.connectTimeout), C.Handler(1), C.NoHandler, [], [])
  }

  function Listening(cfg: Config): C.Connector {
    C.Connector(C.Accepting, 9, 0, map[], Never, At(1 + cfg.acceptTimeout), C.Handler(2), C.NoHandler, [], [])
  }

  function Answered(): C.Connector {
    C.Connector(C.Linked, 9, 7, map[], At(1), Never, C.NoHandler, C.NoHandler, [C.Post(C.Handler(2), Success)], [])
  }

  function Announced(cfg: Config): R.Receiver { R.InitReceiver(cfg).(edgeTime := At(2)) }

  function Credited(cfg: Config): S.Sender { S.InitSender().(range := cfg.receiveBuffer) }

  lemma HelloProduced(cfg: Config)
    requires cfg.packetSize >= 56
    ensures var n := InitNode(cfg).(conn := Calling(cfg).(jobs := map[C.LINK := 0]));
            && NodeOk(n, cfg)
            && Produce(n, 1, 1, cfg) == Produced(InitNode(cfg).(conn := Calling(cfg), ist := Announced(cfg)), Hello(cfg).sections, false)
  {
    var room := cfg.packetSize - PACKET_HEADER;
    var c := Calling(cfg).(jobs := map[C.LINK := 0]);
    assert C.Ready(c, 1) == {C.LINK};
    OneJob(c, C.LINK, room, 1, 1, cfg);
    assert C.AfterJob(c, C.LINK, 1, 1) == Calling(cfg);
    JustEdge(R.InitReceiver(cfg), room - 4, 1, 1);
    var s := S.InitSender();
    NothingRepeated(s, room - 16, 1, 1, cfg.attempts);
    NothingCut(s, room - 16, 1, 1, cfg);
    NoEchoes(s, room - 16);
    assert S.Imbue(s, room - 16, 1, 1, cfg) == S.Burst(s, [], room - 16, true);
    assert [Link] + [Edge(cfg.receiveBuffer)] + [] == Hello(cfg).sections;
    hide C.Imbue, R.Imbue, S.Imbue;
  }

  lemma HelloHeard(cfg: Config)
    ensures var n := InitNode(cfg).(conn := Listening(cfg));
            && NodeOk(n, cfg)
            && Feed(n, Hello(cfg), 1, cfg) ==
                 n.(conn := Listening(cfg).(seen := At(1), remote := 7, jobs := map[C.LINK_ECHO := 0]),
                    ost := Credited(cfg).(acks := {cfg.receiveBuffer}))
  {
    hide C.ParseAll, S.Parse, R.Scan, R.Transmit;
    var n := InitNode(cfg).(conn := Listening(cfg));
    Two(Link, Edge(cfg.receiveBuffer));
    ScanNothing(n.ist, Hello(cfg).sections, cfg);
    SenderTwo(n.ost, Link, Edge(cfg.receiveBuffer));
    ConnTwo(n.conn.(seen := At(1)), 7, Link, Edge(cfg.receiveBuffer), 1, cfg);
    assert {} + {cfg.receiveBuffer} == {cfg.receiveBuffer};
  }

  lemma Two(x: Section, y: Section)
    ensures [x, y][1..] == [y] && [y][1..] == []
  {
  }

  lemma SenderTwo(s: S.Sender, x: Section, y: Section)
    ensures S.Parse(s, [x, y]) == S.ParseSection(S.ParseSection(s, x), y)
  {
    Two(x, y);
    assert S.Parse(S.ParseSection(s, x), [y]) == S.Parse(S.ParseSection(S.ParseSection(s, x), y), []);
  }

  lemma ConnTwo(c: C.Connector, pin: nat, x: Section, y: Section, now: nat, cfg: Config)
    ensures C.ParseAll(c, pin, [x, y], now, cfg) == C.ParseSection(C.ParseSection(c, pin, x, now, cfg), pin, y, now, cfg)
  {
    hide C.ParseSection;
    Two(x, y);
    var d := C.ParseSection(c, pin, x, now, cfg);
    assert C.ParseAll(d, pin, [y], now, cfg) == C.ParseAll(C.ParseSection(d, pin, y, now, cfg), pin, [], now, cfg);
  }

  /** Sections that are neither fragments nor echoes of the edge pass a quiet receiver by. */
  lemma {:induction false} ScanNothing(r: R.Receiver, secs: seq<Section>, cfg: Config)
    requires r.readers == [] && forall x :: x in secs ==> !x.Move? && !x.EdgeEcho?
    ensures R.FillsFit(r) && R.Parse(r, secs, cfg) == r
    decreases |secs|
  {
    R.TransmitUnfolds(r);
    if secs != [] {
      ScanNothing(r, secs[1..], cfg);
    }
  }

  lemma CreditEchoed(room: nat, cfg: Config)
    requires room >= 12
    ensures S.Imbue(Credited(cfg).(acks := {cfg.receiveBuffer}), room, 1, 1, cfg)
            == S.Burst(Credited(cfg), [EdgeEcho(cfg.receiveBuffer)], room - 12, true)
  {
    var s := Credited(cfg).(acks := {cfg.receiveBuffer});
    NothingRepeated(s, room, 1, 1, cfg.attempts);
    NothingCut(s, room, 1, 1, cfg);
    OneEcho(s, cfg.receiveBuffer, room);
    assert [] + [] + [EdgeEcho(cfg.receiveBuffer)] == [EdgeEcho(cfg.receiveBuffer)];
  }

  lemma WelcomeProduced(cfg: Config)
    requires cfg.packetSize >= 56
    ensures var n := InitNode(cfg).(conn := Listening(cfg).(seen := At(1), remote := 7, jobs := map[C.LINK_ECHO := 0]),
                                    ost := Credited(cfg).(acks := {cfg.receiveBuffer}));
            && NodeOk(n, cfg)
            && Produce(n, 1, 1, cfg) ==
                 Produced(InitNode(cfg).(conn := Answered(), ost := Credited(cfg), ist := Announced(cfg)), Welcome(cfg).sections, false)
  {
    hide S.Imbue, R.Imbue;
    var room := cfg.packetSize - PACKET_HEADER;
    var c := Listening(cfg).(seen := At(1), remote := 7, jobs := map[C.LINK_ECHO := 0]);
    assert C.Ready(c, 1) == {C.LINK_ECHO};
    OneJob(c, C.LINK_ECHO, room, 1, 1, cfg);
    assert c.jobs - {C.LINK_ECHO} == map[];
    assert C.AfterJob(c, C.LINK_ECHO, 1, 1) == Answered();
    JustEdge(R.InitReceiver(cfg), room - 4, 1, 1);
    CreditEchoed(room - 16, cfg);
    assert [LinkEcho] + [Edge(cfg.receiveBuffer)] + [EdgeEcho(cfg.receiveBuffer)] == Welcome(cfg).sections;
    hide C.Imbue, R.Imbue, S.Imbue;
  }

  lemma AskedNodes(cfg: Config)
    ensures InitNode(cfg).conn.status == C.Initial
    ensures Channel.Connect(InitNode(cfg), 1, 7, 1, cfg) == InitNode(cfg).(conn := Calling(cfg).(jobs := map[C.LINK := 0]))
    ensures Channel.Accept(InitNode(cfg), 2, 9, 1, cfg) == InitNode(cfg).(conn := Listening(cfg))
  {
  }

  /** Both ends have been asked to connect. */
  lemma Asked(cfg: Config) returns (v: System)
    ensures Reached(v, cfg) && ChannelRuns.Ready(v, cfg) && ChannelRuns.Ready(Swap(v), cfg)
    ensures v.a.node == InitNode(cfg).(conn := Calling(cfg).(jobs := map[C.LINK := 0]))
    ensures v.b.node == InitNode(cfg).(conn := Listening(cfg))
    ensures v.a.trail.role == Caller && v.ab.written == [] && v.ba.written == []
  {
    hide Reached, NodeOk, StepA, Channel.Connect, Channel.Accept, InitNode;
    StartReached(cfg);
    BothReady(Start(cfg), cfg);
    AskedNodes(cfg);
    v := Called(Start(cfg), CallConnect(1, 7, 1), cfg);
    SwapReached(v, cfg);
    v := Called(Swap(v), CallAccept(2, 9, 1), cfg);
    SwapReached(v, cfg);
    v := Swap(v);
  }

  /** A run in which the caller has called and the listener has answered; the answer is on its way. */
  lemma Opening(cfg: Config) returns (v: System)
    requires cfg.packetSize >= 56
    ensures Reached(v, cfg) && ChannelRuns.Ready(v, cfg) && ChannelRuns.Ready(Swap(v), cfg)
    ensures v.a.node == InitNode(cfg).(conn := Calling(cfg), ist := Announced(cfg))
    ensures v.b.node == InitNode(cfg).(conn := Answered(), ost := Credited(cfg), ist := Announced(cfg))
    ensures Welcome(cfg) in v.b.sent && v.a.trail.role == Caller
    ensures v.ab.written == [] && v.ba.written == []
  {
    hide Reached, Produce, Feed, StepA, NodeOk, Legal, ChannelRuns.Ready;
    v := Asked(cfg);
    HelloProduced(cfg);
    v := Emitted(v, 1, 1, Produce(v.a.node, 1, 1, cfg), cfg);
    assert Hello(cfg) in v.a.sent;
    SwapReached(v, cfg);
    HelloHeard(cfg);
    v := Heard(Swap(v), Hello(cfg), 1, cfg);
    WelcomeProduced(cfg);
    v := Emitted(v, 1, 1, Produce(v.a.node, 1, 1, cfg), cfg);
    assert Welcome(cfg) in v.a.sent;
    SwapReached(v, cfg);
    v := Swap(v);
  }

  lemma One(x: Section)
    ensures [x][1..] == []
  {
  }

  // ---------------------------------------------------------------- an established connection

  function Established(): C.Connector {
    C.Connector(C.Linked, 7, 9, map[C.PING := 0], At(1), Never, C.NoHandler, C.NoHandler, [C.Post(C.Handler(1), Success)], [])
  }

  /** A caller that has heard the answer. */
  function Joined(cfg: Config): Node {
    InitNode(cfg).(conn := Established(), ost := Credited(cfg).(acks := {cfg.receiveBuffer}),
                   ist := Announced(cfg).(edgeTime := Never))
  }

  lemma WelcomeHeard(cfg: Config)
    ensures var n := InitNode(cfg).(conn := Calling(cfg), ist := Announced(cfg));
            && NodeOk(n, cfg)
            && Feed(n, Welcome(cfg), 1, cfg) ==
                 Joined(cfg)
  {
    var n := InitNode(cfg).(conn := Calling(cfg), ist := Announced(cfg));
    ThreeHeard(n, 9, LinkEcho, Edge(cfg.receiveBuffer), EdgeEcho(cfg.receiveBuffer), 1, cfg);
    assert map[C.LINK := 2] - {C.LINK} == map[];
    assert {} + {cfg.receiveBuffer} == {cfg.receiveBuffer};
    hide C.ParseAll, S.Parse, R.Scan, R.Transmit;
  }

  /** What an established or calling end makes of three sections, none of them a fragment, without waiting reads. */
  lemma ThreeHeard(n: Node, pin: nat, x: Section, y: Section, z: Section, now: nat, cfg: Config)
    requires NodeOk(n, cfg) && n.ist.readers == [] && !x.Move? && !y.Move? && !z.Move?
    ensures S.Parse(n.ost, [x, y, z]) == S.ParseSection(S.ParseSection(S.ParseSection(n.ost, x), y), z)
    ensures R.Parse(n.ist, [x, y, z], cfg) == R.Hear(R.Hear(R.Hear(n.ist, x), y), z)
    ensures var c := n.conn.(seen := At(now));
            C.Parse(n.conn, pin, [x, y, z], now, cfg) ==
            C.ParseSection(C.ParseSection(C.ParseSection(c, pin, x, now, cfg), pin, y, now, cfg), pin, z, now, cfg)
  {
    assert [x, y, z][1..] == [y, z];
    SenderTwo(S.ParseSection(n.ost, x), y, z);
    var c := n.conn.(seen := At(now));
    ConnTwo(C.ParseSection(c, pin, x, now, cfg), pin, y, z, now, cfg);
    hide C.ParseSection, S.ParseSection;
    var r := R.Hear(n.ist, x);
    Two(y, z);
    assert R.Scan(r, [y, z], cfg) == R.Scan(R.Hear(r, y), [z], cfg);
    assert R.Scan(R.Hear(r, y), [z], cfg) == R.Scan(R.Hear(R.Hear(r, y), z), [], cfg);
    R.TransmitUnfolds(R.Scan(n.ist, [x, y, z], cfg));
  }

  lemma Connected(cfg: Config) returns (v: System)
    requires cfg.packetSize >= 56
    ensures Reached(v, cfg) && ChannelRuns.Ready(v, cfg) && ChannelRuns.Ready(Swap(v), cfg)
    ensures v.a.node == Joined(cfg)
    ensures v.b.node == InitNode(cfg).(conn := Answered(), ost := Credited(cfg), ist := Announced(cfg))
    ensures v.ab.written == [] && v.ba.written == []
  {
    v := Opening(cfg);
    hide Reached, Produce, Feed, StepA, Legal, NodeOk, ChannelRuns.Ready;
    WelcomeHeard(cfg);
    v := Heard(v, Welcome(cfg), 1, cfg);
  }

  lemma SendThree(s: S.Sender, x: Section, y: Section, z: Section)
    ensures S.Parse(s, [x, y, z]) == S.ParseSection(S.ParseSection(S.ParseSection(s, x), y), z)
  {
    assert [x, y, z][1..] == [y, z];
    SenderTwo(S.ParseSection(s, x), y, z);
  }

  lemma ConnThree(c: C.Connector, pin: nat, x: Section, y: Section, z: Section, now: nat, cfg: Config)
    ensures C.ParseAll(c, pin, [x, y, z], now, cfg) ==
            C.ParseSection(C.ParseSection(C.ParseSection(c, pin, x, now, cfg), pin, y, now, cfg), pin, z, now, cfg)
  {
    hide C.ParseSection;
    assert [x, y, z][1..] == [y, z];
    ConnTwo(C.ParseSection(c, pin, x, now, cfg), pin, y, z, now, cfg);
  }

  /** A receiver that refuses none of three sections. */
  lemma ScanThree(r: R.Receiver, x: Section, y: Section, z: Section, cfg: Config)
    requires !(x.Move? && R.Refuses(r, x.handle, |x.fragment|, cfg))
    requires var r1 := R.Hear(r, x); !(y.Move? && R.Refuses(r1, y.handle, |y.fragment|, cfg))
    requires var r2 := R.Hear(R.Hear(r, x), y); !(z.Move? && R.Refuses(r2, z.handle, |z.fragment|, cfg))
    ensures R.Scan(r, [x, y, z], cfg) == R.Hear(R.Hear(R.Hear(r, x), y), z)
  {
    hide R.Hear, R.Refuses;
    assert [x, y, z][1..] == [y, z];
    Two(y, z);
    var r1 := R.Hear(r, x);
    var r2 := R.Hear(r1, y);
    assert R.Scan(r1, [y, z], cfg) == R.Scan(r2, [z], cfg);
    assert R.Scan(r2, [z], cfg) == R.Scan(R.Hear(r2, z), [], cfg);
  }

  // ---------------------------------------------------------------- runs that need not be legal

  ghost predicate Plain(s: System, e: Event, cfg: Config)
    requires ChannelRuns.Ready(s, cfg)
  {
    match e
    case Deliver(p, _) => C.Admits(s.a.node.conn, p.pin)
    case Emit(now, repeat, stale) =>
      s.a.node.conn.status != C.Finished && (stale == [] || Produce(s.a.node, now, repeat, cfg).leftOpen)
    case CallWrite(_, _) => s.a.node.conn.status == C.Linked
    case _ => false
  }

  /** What an event does to the node it happens at, to the packets sent, and to the streams; the other node stays. */
  lemma Effects(s: System, e: Event, cfg: Config) returns (w: System)
    requires ChannelRuns.Ready(s, cfg) && Plain(s, e, cfg)
    ensures w == StepA(s, e, cfg) && w.b == s.b && w.a.node == NodeAfter(s.a.node, e, cfg) && w.ba.written == s.ba.written
    ensures e.Emit? ==>
              w.a.sent == Sent(s.a.sent, s.a.node.conn.local, Produce(s.a.node, e.now, e.repeat, cfg).sections + e.stale)
    ensures !e.Emit? ==> w.a.sent == s.a.sent
    ensures e.CallWrite? ==> w.ab.written == if S.Accepts(s.a.node.ost, |e.buffer|, cfg) then s.ab.written + e.buffer else s.ab.written
    ensures !e.CallWrite? ==> w.ab.written == s.ab.written
  {
    hide Produce, Feed, TrackAll, TrackJobs, NodeOk, S.Append, Join, L.HeardAll;
    w := StepA(s, e, cfg);
    if e.Emit? {
      var secs := Produce(s.a.node, e.now, e.repeat, cfg).sections;
      assert secs + [] == secs;
    }
    if e.CallWrite? {
      SoundSpan(s.a.node, cfg);
    }
  }

  lemma SoundSpan(n: Node, cfg: Config)
    requires NodeOk(n, cfg)
    ensures n.ost.head <= n.ost.tail
  {
  }

  /** One more turn of a run that starts anywhere. */
  lemma Went(s: System, es: seq<Turn>, atA: bool, e: Event, cfg: Config) returns (more: seq<Turn>)
    requires LegalRun(s, es, cfg)
    requires var v := View(Exec(s, es, cfg), atA); ChannelRuns.Ready(v, cfg) && Legal(v, e, cfg)
    ensures more == es + [Turn(atA, e)] && LegalRun(s, more, cfg)
    ensures Exec(s, more, cfg) == View(StepA(View(Exec(s, es, cfg), atA), e, cfg), atA)
  {
    hide StepA, Legal, ChannelRuns.Ready;
    RunSnoc(s, es, Turn(atA, e), cfg);
    more := es + [Turn(atA, e)];
  }

  // ---------------------------------------------------------------- a foreign fragment behind an open body

  function Pinging(time: nat): C.Connector { Established().(jobs := map[C.PING := time]) }

  /** A write behind everything cut so far. */
  lemma Wrote(v: System, d: seq<byte>, id: nat, writers: seq<S.Writer>, cfg: Config) returns (w: System)
    requires Reached(v, cfg) && ChannelRuns.Ready(v, cfg) && v.a.node.conn.status == C.Linked && 0 < |d| < cfg.sendBuffer
    requires var s := v.a.node.ost; s.queue == [] && s.head == s.tail && s.writers == writers
    ensures w == StepA(v, CallWrite(d, id), cfg) && Legal(v, CallWrite(d, id), cfg)
    ensures Reached(w, cfg) && ChannelRuns.Ready(w, cfg) && ChannelRuns.Ready(Swap(w), cfg)
    ensures var s := v.a.node.ost;
            w.a.node == v.a.node.(ost := s.(queue := [d], tail := s.tail + |d|, writers := writers + [S.Writer(s.tail, |d|, id)]))
    ensures w.b == v.b && w.ab.written == v.ab.written + d
  {
    hide Reached, NodeOk, ChannelRuns.Ready;
    w := Called(v, CallWrite(d, id), cfg);
    hide StepA;
    var w' := Effects(v, CallWrite(d, id), cfg);
    assert [] + [d] == [d];
  }

  lemma LegalRead(s: System, size: nat, id: nat, cfg: Config)
    requires ChannelRuns.Ready(s, cfg)
    ensures Legal(s, CallRead(size, id), cfg)
  {
  }
}
