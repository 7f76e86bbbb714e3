/** In every leaky configuration some run leaves a body open. */
module OpenBodyRuns {
  import opened Containers
  import opened Protocol
  import opened Channel
  import opened ChannelRuns
  import opened ChannelLaws
  import opened ChannelTheorems
  import opened ChannelSteps
  import opened OpenBodies
  import C = Connecting
  import S = Sending
  import R = Receiving
  import L = StreamLink

  /** A caller that pings at `time`, does nothing as a receiver, and whose sender is `ost`. */
  ghost predicate CallerIs(n: Node, time: nat, ost: S.Sender, cfg: Config) {
    n.conn == Pinging(time) && n.ost == ost && n.ist == Announced(cfg).(edgeTime := Never)
  }

  lemma CallerOk(n: Node, time: nat, ost: S.Sender, cfg: Config)
    requires CallerIs(n, time, ost, cfg) && S.Sound(ost, cfg)
    ensures NodeOk(n, cfg)
  {
    hide S.Sound;
  }

  lemma PingPass(time: nat, room: nat, now: nat, repeat: nat, cfg: Config)
    requires 1 <= now <= 5000 && room >= 12
    ensures C.Imbue(Pinging(time), room, now, repeat, cfg) ==
            if time < now then C.Burst(Pinging(now + repeat), [Ping(now)], room - 12) else C.Burst(Pinging(time), [], room)
  {
    var c := Pinging(time);
    if time < now {
      assert C.Ready(c, now) == {C.PING};
      OneJob(c, C.PING, room, now, repeat, cfg);
      assert c.jobs[C.PING := now + repeat] == map[C.PING := now + repeat];
    } else {
      assert C.Ready(c, now) == {};
      NoJobs(c, room, now, repeat, cfg);
    }
  }

  /** A packet whose first part is a ping or nothing. */
  lemma Composed(n: Node, time: nat, ost: S.Sender, now: nat, repeat: nat, cfg: Config)
    requires CallerIs(n, time, ost, cfg) && S.Sound(ost, cfg) && 1 <= now <= 5000 && cfg.packetSize >= 56
    ensures NodeOk(n, cfg) && ost.head <= ost.range
    ensures var due := time < now;
            var b := S.Imbue(ost, if due then BodyRoom(cfg) - 12 else BodyRoom(cfg), now, repeat, cfg);
            var r := Produce(n, now, repeat, cfg);
            && CallerIs(r.node, if due then now + repeat else time, b.sender, cfg)
            && r.sections == (if due then [Ping(now)] else []) + b.sections
            && r.leftOpen == (!b.ok && b.sections != [])
  {
    hide C.Imbue, R.Imbue, S.Imbue, S.Sound;
    CallerOk(n, time, ost, cfg);
    PingPass(time, BodyRoom(cfg), now, repeat, cfg);
    JustEdge(n.ist, if time < now then BodyRoom(cfg) - 12 else BodyRoom(cfg), now, repeat);
    var first := if time < now then [Ping(now)] else [];
    assert first + [] == first;
    HeadCovered(ost, cfg);
  }

  lemma HeadCovered(ost: S.Sender, cfg: Config)
    requires S.Sound(ost, cfg)
    ensures ost.head <= ost.range
  {
  }

  const W1: S.Writer := S.Writer(0, 1, 10)
  const W2: S.Writer := S.Writer(1, 1, 11)

  function Early(x: byte, range: nat): S.Sender {
    S.Sender([[x]], 0, 1, map[], [W1], {range}, range, [], [])
  }

  /** One byte in flight, which is not due for long. */
  function Lone(x: byte, range: nat): S.Sender {
    S.Sender([], 1, 1, map[0 := S.Flight([x], 1001, 1)], [W1], {}, range, [], [])
  }

  lemma FirstFlight(x: byte, room: nat, cfg: Config)
    requires room >= 28 && cfg.swarm >= 1 && cfg.receiveBuffer >= 1 && cfg.sendBuffer >= 2
    ensures S.Sound(Early(x, cfg.receiveBuffer), cfg)
    ensures var b := S.Imbue(Early(x, cfg.receiveBuffer), room, 1, 1000, cfg);
            b.ok && b.sender == Lone(x, cfg.receiveBuffer) && b.sections == [Move(0, [x]), EdgeEcho(cfg.receiveBuffer)]
  {
    hide S.Cut, S.Resend, S.EchoEdges;
    var s := Early(x, cfg.receiveBuffer);
    assert Concat([[x]]) == [x] + Concat([]);
    NothingRepeated(s, room, 1, 1000, cfg.attempts);
    var t := Lone(x, cfg.receiveBuffer).(acks := {cfg.receiveBuffer});
    assert s.queue[1..] == [];
    var max := S.CutLimit(s, room, cfg.swarm);
    assert |s.moves| == 0;
    assert max >= 1 && S.CutOnce(s, max, 1001) == t;
    S.CutUnfolds(s, room, 1, 1000, cfg.swarm);
    NothingCut(t, room - 13, 1, 1000, cfg);
    OneEcho(t, cfg.receiveBuffer, room - 13);
    assert [Move(0, [x])] + [] == [Move(0, [x])];
    assert [] + [Move(0, [x])] + [EdgeEcho(cfg.receiveBuffer)] == [Move(0, [x]), EdgeEcho(cfg.receiveBuffer)];
  }

  /** Two flights of a byte each: the older one is due after 1001, the younger one after `time`. */
  function Pair(x: byte, y: byte, older: nat, time: nat, younger: nat, range: nat, alarms: seq<Code>): S.Sender {
    S.Sender([], 2, 2, map[0 := S.Flight([x], 1001, older), 1 := S.Flight([y], time, younger)], [W1, W2], {}, range, [], alarms)
  }

  lemma PairSound(x: byte, y: byte, older: nat, time: nat, younger: nat, range: nat, alarms: seq<Code>, cfg: Config)
    requires range >= 2
    ensures S.Sound(Pair(x, y, older, time, younger, range, alarms), cfg)
  {
  }

  lemma SecondFlight(x: byte, y: byte, room: nat, cfg: Config)
    requires room >= 28 && cfg.swarm >= 2 && cfg.receiveBuffer >= 1 && cfg.sendBuffer >= 2
    ensures var range := cfg.receiveBuffer + 1;
            var s := Lone(x, range).(queue := [[y]], tail := 2, writers := [W1, W2], acks := {range});
            var b := S.Imbue(s, room, 1, 0, cfg);
            && S.Sound(s, cfg)
            && b.ok && b.sender == Pair(x, y, 1, 1, 1, range, []) && b.sections == [Move(1, [y]), EdgeEcho(range)]
  {
    hide S.Cut, S.Resend, S.EchoEdges;
    hide S.CutOnce, S.CutLimit, S.CutSection;
    var range := cfg.receiveBuffer + 1;
    var s := Lone(x, range).(queue := [[y]], tail := 2, writers := [W1, W2], acks := {range});
    assert Concat([[y]]) == [y] + Concat([]);
    NothingRepeated(s, room, 1, 0, cfg.attempts);
    var t := Pair(x, y, 1, 1, 1, range, []).(acks := {range});
    SecondCut(x, y, s, range, room, cfg);
    S.CutUnfolds(s, room, 1, 0, cfg.swarm);
    NothingCut(t, room - 13, 1, 0, cfg);
    OneEcho(t, range, room - 13);
    assert [Move(1, [y])] + [] == [Move(1, [y])];
    assert [] + [Move(1, [y])] + [EdgeEcho(range)] == [Move(1, [y]), EdgeEcho(range)];
  }

  lemma SecondCut(x: byte, y: byte, s: S.Sender, range: nat, room: nat, cfg: Config)
    requires s == Lone(x, range).(queue := [[y]], tail := 2, writers := [W1, W2], acks := {range})
    requires room >= 28 && cfg.swarm >= 2 && range >= 2
    ensures var max := S.CutLimit(s, room, cfg.swarm);
            && max >= 1 && S.CutSection(s, max) == Move(1, [y])
            && S.CutOnce(s, max, 1) == Pair(x, y, 1, 1, 1, range, []).(acks := {range})
  {
    hide Concat;
    assert s.queue[1..] == [];
    assert |s.moves| == 1;
  }

  /** Only the younger flight is due. */
  lemma YoungerRepeated(x: byte, y: byte, time: nat, attempt: nat, range: nat, room: nat, cfg: Config)
    requires room >= 28 && range >= 2 && time < 1001 && attempt != cfg.attempts
    ensures var b := S.Imbue(Pair(x, y, 1, time, attempt, range, []), room, time + 1, 0, cfg);
            b.ok && b.sender == Pair(x, y, 1, time + 1, (attempt + 1) % 256, range, []) && b.sections == [Move(1, [y])]
  {
    hide S.Cut, S.Resend, S.EchoEdges;
    var s := Pair(x, y, 1, time, attempt, range, []);
    var t := Pair(x, y, 1, time + 1, (attempt + 1) % 256, range, []);
    assert S.Eligible(s, room, time + 1) == {1};
    assert MinOf({1}) == 1;
    assert S.Repeated(s, 1, time + 1) == t;
    S.ResendUnfolds(s, room, time + 1, 0, cfg.attempts);
    NothingRepeated(t, room - 13, time + 1, 0, cfg.attempts);
    NothingCut(t, room - 13, time + 1, 0, cfg);
    NoEchoes(t, room - 13);
    assert [Move(1, [y])] + [] + [] == [Move(1, [y])];
  }

  /** Both are due: the older one is repeated, then the younger one is given up. */
  lemma GivenUpBehind(x: byte, y: byte, older: nat, time: nat, range: nat, alarms: seq<Code>, room: nat, now: nat, repeat: nat, cfg: Config)
    requires room >= 28 && range >= 2 && time < now && 1001 < now && older != cfg.attempts
    ensures var b := S.Imbue(Pair(x, y, older, time, cfg.attempts, range, alarms), room, now, repeat, cfg);
            !b.ok && b.sections == [Move(0, [x])]
  {
    hide S.Imbue;
    GivesUpBehind(Pair(x, y, older, time, cfg.attempts, range, alarms), 0, 1, room, now, repeat, cfg);
  }

  /** The older one is at the limit itself: the pass gives up at once, and its counter goes past the limit. */
  lemma GivenUpFirst(x: byte, y: byte, time: nat, range: nat, room: nat, now: nat, repeat: nat, cfg: Config)
    requires room >= 28 && range >= 2 && time < now && 1001 < now && cfg.attempts == 1
    ensures var b := S.Imbue(Pair(x, y, 1, time, 1, range, []), room, now, repeat, cfg);
            !b.ok && b.sections == [] && b.sender == Pair(x, y, 2, time, 1, range, [BrokenPipe])
  {
    hide S.Cut, S.Resend, S.EchoEdges;
    var s := Pair(x, y, 1, time, 1, range, []);
    assert S.Eligible(s, room, now) == {0, 1};
    assert MinOf({0, 1}) == 0;
    S.ResendUnfolds(s, room, now, repeat, cfg.attempts);
    assert [] + [BrokenPipe] == [BrokenPipe];
  }

  // ---------------------------------------------------------------- the peer of the run

  function Asking(cfg: Config): R.Receiver {
    Announced(cfg).(readers := [R.Reader(1, [], 20)])
  }

  /** The byte has been read: the edge has moved, and nothing has been acknowledged or announced yet. */
  function Given(x: byte, cfg: Config): R.Receiver {
    R.Receiver(1, 1, map[], {0}, [], cfg.receiveBuffer + 1, At(0), [R.ReadPost(20, Success, [x])], [])
  }

  function Listener(conn: C.Connector, ist: R.Receiver, cfg: Config): Node {
    InitNode(cfg).(conn := conn, ost := Credited(cfg), ist := ist)
  }

  lemma ByteServed(x: byte, cfg: Config)
    requires cfg.receiveBuffer >= 1
    ensures R.FillsFit(Asking(cfg))
    ensures R.Parse(Asking(cfg), [Ping(1), Move(0, [x]), EdgeEcho(cfg.receiveBuffer)], cfg) == Given(x, cfg)
  {
    var r := Asking(cfg);
    var r1 := R.OnMove(r, 0, [x]);
    assert r1.data == map[0 := [x]] && r1.data.Keys == {0} && r1.acks == {0};
    assert MaxOf({0}) == 0 && MinOf({0}) == 0;
    var r2 := r1.(edgeTime := Never);
    ScanThree(r, Ping(1), Move(0, [x]), EdgeEcho(cfg.receiveBuffer), cfg);
    hide R.Scan, R.OnMove, R.Hear, R.Refuses, R.Transmit;
    assert [] + [x] == [x];
    assert r2.readers[0 := R.Reader(1, [x], 20)] == [R.Reader(1, [x], 20)];
    assert r2.data - {0} == map[];
    assert R.Step(r2) == Given(x, cfg);
    R.TransmitUnfolds(r2);
    R.TransmitUnfolds(Given(x, cfg));
  }

  lemma ByteHeard(x: byte, cfg: Config)
    requires cfg.receiveBuffer >= 1
    ensures var n := Listener(Answered(), Asking(cfg), cfg);
            && NodeOk(n, cfg)
            && Feed(n, Packet(7, [Ping(1), Move(0, [x]), EdgeEcho(cfg.receiveBuffer)]), 1, cfg)
               == Listener(Answered().(jobs := map[C.PING_ECHO := 1]), Given(x, cfg), cfg)
  {
    hide R.Parse, S.Parse, C.ParseAll, R.Scan;
    ByteServed(x, cfg);
    SendThree(Credited(cfg), Ping(1), Move(0, [x]), EdgeEcho(cfg.receiveBuffer));
    ConnThree(Answered().(seen := At(1)), 7, Ping(1), Move(0, [x]), EdgeEcho(cfg.receiveBuffer), 1, cfg);
  }

  lemma AckAndEdge(r: R.Receiver, room: nat)
    requires r.acks == {0} && r.edgeTime == At(0) && room >= 24
    ensures R.Imbue(r, room, 1, 1) ==
            R.Burst(r.(acks := {}, edgeTime := At(2)), [MoveEcho(0), Edge(r.edge)], room - 24)
  {
    assert MinOf({0}) == 0;
    assert r.acks - {0} == {};
    R.EchoMovesUnfolds(r, room);
    R.EchoMovesUnfolds(r.(acks := {}), room - 12);
    assert [MoveEcho(0)] + [] + [Edge(r.edge)] == [MoveEcho(0), Edge(r.edge)];
  }

  /** A sender with nothing to do leaves the packet as it is. */
  lemma Nothing(room: nat, now: nat, repeat: nat, cfg: Config)
    ensures S.Imbue(Credited(cfg), room, now, repeat, cfg) == S.Burst(Credited(cfg), [], room, true)
  {
    hide S.Cut, S.Resend, S.EchoEdges;
    NothingRepeated(Credited(cfg), room, now, repeat, cfg.attempts);
    NothingCut(Credited(cfg), room, now, repeat, cfg);
    NoEchoes(Credited(cfg), room);
  }

  lemma PingAnswered(room: nat, cfg: Config)
    requires room >= 12
    ensures var c := Answered().(jobs := map[C.PING_ECHO := 1]);
            C.Imbue(c, room, 1, 1, cfg) == C.Burst(Answered(), [PingEcho(1)], room - 12)
  {
    var c := Answered().(jobs := map[C.PING_ECHO := 1]);
    assert C.Ready(c, 1) == {C.PING_ECHO};
    OneJob(c, C.PING_ECHO, room, 1, 1, cfg);
    assert c.jobs - {C.PING_ECHO} == map[];
  }

  lemma Acknowledged(x: byte, cfg: Config)
    requires cfg.packetSize >= 56
    ensures var n := Listener(Answered().(jobs := map[C.PING_ECHO := 1]), Given(x, cfg), cfg);
            && NodeOk(n, cfg)
            && Produce(n, 1, 1, cfg) ==
               Produced(Listener(Answered(), Given(x, cfg).(acks := {}, edgeTime := At(2)), cfg),
                        [PingEcho(1), MoveEcho(0), Edge(cfg.receiveBuffer + 1)], false)
  {
    hide C.Imbue, R.Imbue, S.Imbue;
    var room := cfg.packetSize - PACKET_HEADER;
    PingAnswered(room, cfg);
    AckAndEdge(Given(x, cfg), room - 12);
    Nothing(room - 36, 1, 1, cfg);
    assert [PingEcho(1)] + [MoveEcho(0), Edge(cfg.receiveBuffer + 1)] + []
           == [PingEcho(1), MoveEcho(0), Edge(cfg.receiveBuffer + 1)];
  }

  lemma EdgeRepeated(x: byte, cfg: Config)
    requires cfg.packetSize >= 56
    ensures var r := Given(x, cfg).(acks := {}, edgeTime := At(2));
            var n := Listener(Answered(), r, cfg);
            && NodeOk(n, cfg)
            && Produce(n, 3, 1, cfg) ==
               Produced(Listener(Answered(), r.(edgeTime := At(4)), cfg), [Edge(cfg.receiveBuffer + 1)], false)
  {
    hide C.Imbue, R.Imbue, S.Imbue;
    var room := cfg.packetSize - PACKET_HEADER;
    assert C.Ready(Answered(), 3) == {};
    NoJobs(Answered(), room, 3, 1, cfg);
    JustEdge(Given(x, cfg).(acks := {}, edgeTime := At(2)), room, 3, 1);
    Nothing(room - 12, 3, 1, cfg);
    assert [] + [Edge(cfg.receiveBuffer + 1)] + [] == [Edge(cfg.receiveBuffer + 1)];
  }

  lemma EdgeHeard(n: Node, x: byte, cfg: Config)
    requires CallerIs(n, 1001, Lone(x, cfg.receiveBuffer), cfg) && cfg.receiveBuffer >= 1
    ensures NodeOk(n, cfg) && C.Admits(n.conn, 9)
    ensures var m := Feed(n, Packet(9, [Edge(cfg.receiveBuffer + 1)]), 1, cfg);
            CallerIs(m, 1001, Lone(x, cfg.receiveBuffer + 1).(acks := {cfg.receiveBuffer + 1}), cfg)
  {
    var edge := [Edge(cfg.receiveBuffer + 1)];
    ScanNothing(n.ist, edge, cfg);
    hide R.Scan, R.Transmit, R.Parse;
    assert edge[1..] == [];
    var s := n.ost;
    assert S.Parse(s, edge) == S.Parse(S.ParseSection(s, edge[0]), []);
    assert {} + {cfg.receiveBuffer + 1} == {cfg.receiveBuffer + 1};
    var c := n.conn.(seen := At(1));
    assert C.ParseAll(c, 9, edge, 1, cfg) == C.ParseAll(C.ParseSection(c, 9, edge[0], 1, cfg), 9, [], 1, cfg);
  }

  // ---------------------------------------------------------------- the run

  /** One byte is in flight and has been read; its acknowledgement is lost, and the credit has moved on. */
  lemma CreditMoved(x: byte, cfg: Config) returns (v: System)
    requires Leaky(cfg) && cfg.packetSize >= 56
    ensures Reached(v, cfg) && ChannelRuns.Ready(v, cfg)
    ensures CallerIs(v.a.node, 1001, Lone(x, cfg.receiveBuffer + 1).(acks := {cfg.receiveBuffer + 1}), cfg)
  {
    v := ByteSent(x, cfg);
    hide Reached, ChannelRuns.Ready, StepA, Produce, Feed, NodeOk, Legal, Leaky, Credited, Given, Asking, Answered;
    var p := Packet(7, [Ping(1), Move(0, [x]), EdgeEcho(cfg.receiveBuffer)]);
    SwapReached(v, cfg);
    ByteHeard(x, cfg);
    PinsFit(cfg);
    v := Heard(Swap(v), p, 1, cfg);
    Acknowledged(x, cfg);
    v := Emitted(v, 1, 1, Produce(v.a.node, 1, 1, cfg), cfg);
    EdgeRepeated(x, cfg);
    v := Emitted(v, 3, 1, Produce(v.a.node, 3, 1, cfg), cfg);
    var q := Packet(9, [Edge(cfg.receiveBuffer + 1)]);
    assert q in v.a.sent;
    SwapReached(v, cfg);
    EdgeHeard(v.b.node, x, cfg);
    v := Heard(Swap(v), q, 1, cfg);
  }

  lemma PinsFit(cfg: Config)
    ensures C.Admits(Answered(), 7) && Answered().local == 9
    ensures Answered().status == C.Linked && Answered().(jobs := map[C.PING_ECHO := 1]).status == C.Linked
    ensures Answered().(jobs := map[C.PING_ECHO := 1]).local == 9
  {
  }

  /** The peer waits for a byte, and the caller has sent one. */
  lemma ByteSent(x: byte, cfg: Config) returns (v: System)
    requires Leaky(cfg) && cfg.packetSize >= 56
    ensures Reached(v, cfg) && ChannelRuns.Ready(v, cfg) && ChannelRuns.Ready(Swap(v), cfg)
    ensures CallerIs(v.a.node, 1001, Lone(x, cfg.receiveBuffer), cfg)
    ensures v.b.node == Listener(Answered(), Asking(cfg), cfg)
    ensures Packet(7, [Ping(1), Move(0, [x]), EdgeEcho(cfg.receiveBuffer)]) in v.a.sent
  {
    hide Reached, StepA, Produce, S.Sound, S.Imbue, Legal, ChannelRuns.Ready, L.AfterWrite, Asking, Credited;
    v := Waiting(cfg);
    v := Wrote(v, [x], 10, [], cfg);
    assert [] + [W1] == [W1];
    FirstFlight(x, BodyRoom(cfg) - 12, cfg);
    Composed(v.a.node, 0, Early(x, cfg.receiveBuffer), 1, 1000, cfg);
    var r := Produce(v.a.node, 1, 1000, cfg);
    assert r.sections == [Ping(1), Move(0, [x]), EdgeEcho(cfg.receiveBuffer)];
    v := Emitted(v, 1, 1000, r, cfg);
  }

  /** An established connection whose listener waits for a byte. */
  lemma Waiting(cfg: Config) returns (v: System)
    requires cfg.packetSize >= 56
    ensures Reached(v, cfg) && ChannelRuns.Ready(v, cfg) && ChannelRuns.Ready(Swap(v), cfg)
    ensures CallerIs(v.a.node, 0, S.InitSender().(range := cfg.receiveBuffer, acks := {cfg.receiveBuffer}), cfg)
    ensures v.a.node.conn.status == C.Linked
    ensures v.b.node == Listener(Answered(), Asking(cfg), cfg)
  {
    v := Connected(cfg);
    hide Reached, StepA, Legal, ChannelRuns.Ready;
    SwapReached(v, cfg);
    LegalRead(Swap(v), 1, 20, cfg);
    v := Called(Swap(v), CallRead(1, 20), cfg);
    R.TransmitUnfolds(Asking(cfg));
    assert v.a.node.ist == Asking(cfg);
    SwapReached(v, cfg);
    v := Swap(v);
  }

  lemma TwoInFlight(x: byte, y: byte, cfg: Config) returns (v: System)
    requires Leaky(cfg) && cfg.packetSize >= 56
    ensures Reached(v, cfg) && ChannelRuns.Ready(v, cfg)
    ensures CallerIs(v.a.node, 1001, Pair(x, y, 1, 1, 1, cfg.receiveBuffer + 1, []), cfg)
  {
    v := CreditMoved(x, cfg);
    hide Reached, StepA, Produce, S.Sound, S.Imbue, Legal, ChannelRuns.Ready, L.AfterWrite;
    v := Wrote(v, [y], 11, [W1], cfg);
    assert [W1] + [W2] == [W1, W2];
    SecondFlight(x, y, BodyRoom(cfg), cfg);
    Composed(v.a.node, 1001, v.a.node.ost, 1, 0, cfg);
    v := Emitted(v, 1, 0, Produce(v.a.node, 1, 0, cfg), cfg);
  }

  /** How many more times the counter has to be raised to meet the limit. */
  function Distance(attempt: nat, limit: nat): nat {
    if attempt <= limit then limit - attempt else if attempt < 256 then 256 + limit - attempt else 0
  }

  /** The younger flight is repeated until its counter meets the limit; the older one is not due yet. */
  lemma {:induction false} UntilTheLimit(v: System, x: byte, y: byte, time: nat, attempt: nat, cfg: Config)
    returns (w: System, last: nat)
    requires Leaky(cfg) && cfg.packetSize >= 56 && attempt < 256 && 1 <= time && time + Distance(attempt, cfg.attempts) <= 300
    requires Reached(v, cfg) && ChannelRuns.Ready(v, cfg)
    requires CallerIs(v.a.node, 1001, Pair(x, y, 1, time, attempt, cfg.receiveBuffer + 1, []), cfg)
    ensures Reached(w, cfg) && ChannelRuns.Ready(w, cfg) && last <= 300
    ensures CallerIs(w.a.node, 1001, Pair(x, y, 1, last, cfg.attempts, cfg.receiveBuffer + 1, []), cfg)
    decreases Distance(attempt, cfg.attempts)
  {
    hide Reached, StepA, Produce, S.Sound, S.Imbue, Legal, ChannelRuns.Ready, Pair;
    if attempt == cfg.attempts {
      return v, time;
    }
    var range := cfg.receiveBuffer + 1;
    PairSound(x, y, 1, time, attempt, range, [], cfg);
    HeadCovered(v.a.node.ost, cfg);
    YoungerRepeated(x, y, time, attempt, range, BodyRoom(cfg), cfg);
    Composed(v.a.node, 1001, v.a.node.ost, time + 1, 0, cfg);
    var u := Emitted(v, time + 1, 0, Produce(v.a.node, time + 1, 0, cfg), cfg);
    w, last := UntilTheLimit(u, x, y, time + 1, (attempt + 1) % 256, cfg);
  }

  /** A packet of end `a` would leave its body open. */
  ghost predicate LeavesOpen(v: System, now: nat, repeat: nat, cfg: Config) {
    ChannelRuns.Ready(v, cfg) && Produce(v.a.node, now, repeat, cfg).leftOpen
  }

  /**
   * A run to an open body. With a limit of 1 the older fragment has to be given up once before: its counter then lies
   * beyond the limit, and the run goes on before the `on_error` that this posted has been executed.
   */
  lemma OpenBodyReached(x: byte, y: byte, cfg: Config) returns (v: System)
    requires Leaky(cfg) && cfg.packetSize >= 56
    ensures Reached(v, cfg) && LeavesOpen(v, 1002, 1, cfg)
  {
    hide Reached, LeavesOpen, Pair;
    var last;
    v := TwoInFlight(x, y, cfg);
    v, last := UntilTheLimit(v, x, y, 1, 1, cfg);
    if cfg.attempts != 1 {
      OpensNext(v, x, y, 1, 1001, last, [], cfg);
    } else {
      v := PastTheLimit(v, x, y, last, cfg);
      OpensNext(v, x, y, 2, 1003, last, [BrokenPipe], cfg);
    }
  }

  lemma OpensNext(v: System, x: byte, y: byte, older: nat, ping: nat, last: nat, alarms: seq<Code>, cfg: Config)
    requires Leaky(cfg) && cfg.packetSize >= 56 && ChannelRuns.Ready(v, cfg) && last <= 300 && older != cfg.attempts
    requires CallerIs(v.a.node, ping, Pair(x, y, older, last, cfg.attempts, cfg.receiveBuffer + 1, alarms), cfg)
    ensures LeavesOpen(v, 1002, 1, cfg)
  {
    hide Produce, S.Sound, S.Imbue, Pair, ChannelRuns.Ready;
    var range := cfg.receiveBuffer + 1;
    PairSound(x, y, older, last, cfg.attempts, range, alarms, cfg);
    HeadCovered(v.a.node.ost, cfg);
    Composed(v.a.node, ping, v.a.node.ost, 1002, 1, cfg);
    GivenUpBehind(x, y, older, last, range, alarms, if ping < 1002 then BodyRoom(cfg) - 12 else BodyRoom(cfg), 1002, 1, cfg);
  }

  /** With a limit of 1 the older fragment is given up at once, in a packet of its own kind: nothing is left open. */
  lemma PastTheLimit(v: System, x: byte, y: byte, last: nat, cfg: Config) returns (w: System)
    requires Leaky(cfg) && cfg.packetSize >= 56 && cfg.attempts == 1 && last <= 300
    requires Reached(v, cfg) && ChannelRuns.Ready(v, cfg)
    requires CallerIs(v.a.node, 1001, Pair(x, y, 1, last, 1, cfg.receiveBuffer + 1, []), cfg)
    ensures Reached(w, cfg) && ChannelRuns.Ready(w, cfg)
    ensures CallerIs(w.a.node, 1003, Pair(x, y, 2, last, 1, cfg.receiveBuffer + 1, [BrokenPipe]), cfg)
  {
    hide Reached, StepA, Produce, S.Sound, S.Imbue, Legal, Pair, ChannelRuns.Ready;
    var range := cfg.receiveBuffer + 1;
    PairSound(x, y, 1, last, 1, range, [], cfg);
    HeadCovered(v.a.node.ost, cfg);
    Composed(v.a.node, 1001, v.a.node.ost, 1002, 1, cfg);
    GivenUpFirst(x, y, last, range, BodyRoom(cfg) - 12, 1002, 1, cfg);
    w := Emitted(v, 1002, 1, Produce(v.a.node, 1002, 1, cfg), cfg);
  }

  lemma {:induction false} LegalIsClean(s: System, turns: seq<Turn>, cfg: Config)
    requires LegalRun(s, turns, cfg)
    ensures CleanRun(s, turns, cfg)
    decreases |turns|
  {
    hide Take, ChannelRuns.Ready, Produce, Harmless, Production;
    if turns != [] {
      LegalIsClean(Take(s, turns[0], cfg), turns[1..], cfg);
    }
  }

  lemma OnlyLeaky(v: System, now: nat, repeat: nat, cfg: Config)
    requires Reached(v, cfg) && LeavesOpen(v, now, repeat, cfg)
    ensures Leaky(cfg)
  {
    hide SysInv, AllDry, Exec, LegalRun, CleanRun, Leaky, Produce;
    if !Leaky(cfg) {
      var turns, atA :| LegalRun(Start(cfg), turns, cfg) && v == View(Exec(Start(cfg), turns, cfg), atA);
      StartHolds(cfg);
      StartDry(cfg);
      LegalIsClean(Start(cfg), turns, cfg);
      CleanRunIsLegal(Start(cfg), turns, cfg);
      ReachedInv(v, cfg);
      SwapDry(Exec(Start(cfg), turns, cfg), cfg);
      NoOpenBody(v, now, repeat, cfg);
    }
  }

  /** Some run leaves the body of a packet open if and only if the configuration is leaky. */
  lemma OpenBodyIff(cfg: Config)
    requires cfg.packetSize >= 56
    ensures (exists v, now, repeat :: Reached(v, cfg) && LeavesOpen(v, now, repeat, cfg)) <==> Leaky(cfg)
  {
    hide Reached, LeavesOpen, Leaky;
    if Leaky(cfg) {
      var v := OpenBodyReached(1, 2, cfg);
    }
    forall v, now, repeat | Reached(v, cfg) && LeavesOpen(v, now, repeat, cfg) ensures Leaky(cfg) {
      OnlyLeaky(v, now, repeat, cfg);
    }
  }
}
