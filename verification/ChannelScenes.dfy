/** A run with an empty write, step by step. */
module ChannelScenes {
  import opened Containers
  import opened Protocol
  import opened Channel
  import opened ChannelRuns
  import opened ChannelTheorems
  import opened ChannelSteps
  import C = Connecting
  import S = Sending
  import R = Receiving
  import RL = ReceiverLaws

  /** Small buffers and the smallest packet. */
  const CFG: Config := Config(10, 10, 2, 2, 56, 0, 0, 0, 0)

  lemma PingSent(room: nat)
    requires room == 40
    ensures C.Imbue(Established(), room, 1, 1, CFG) == C.Burst(Established().(jobs := map[C.PING := 2]), [Ping(1)], 28)
  {
    assert C.Ready(Established(), 1) == {C.PING};
    OneJob(Established(), C.PING, 40, 1, 1, CFG);
  }

  /** Credit for ten bytes, an empty write that was turned away, and one byte behind it. */
  function Hollow(x: byte): S.Sender {
    S.Sender([[], [x]], 0, 1, map[], [S.Writer(0, 1, 11)], {10}, 10, [S.WritePost(10, NoBufferSpace, 0)], [NoBufferSpace])
  }

  /** Both sent: the flight table knows the empty fragment only. */
  function Hollowed(x: byte): S.Sender {
    Hollow(x).(queue := [], head := 1, moves := map[0 := S.Flight([], 2, 1)])
  }

  lemma HollowWritten(x: byte)
    ensures S.Append(S.Append(Credited(CFG).(acks := {10}), [], 10, CFG), [x], 11, CFG) == Hollow(x)
    ensures S.Sound(S.Append(Credited(CFG).(acks := {10}), [], 10, CFG), CFG) && S.Sound(Hollow(x), CFG)
    ensures S.Accepts(Credited(CFG).(acks := {10}), 0, CFG)
    ensures S.Accepts(S.Append(Credited(CFG).(acks := {10}), [], 10, CFG), 1, CFG)
  {
    assert Concat([[], [x]]) == [] + Concat([[x]]);
    assert Concat([[x]]) == [x] + Concat([]);
    assert Concat<byte>([[]]) == [] + Concat([]);
  }

  lemma HollowCuts(x: byte)
    ensures S.Cut(Hollow(x), 28, 1, 1, 2) == S.Burst(Hollowed(x), [Move(0, []), Move(0, [x])], 3, true)
  {
    hide S.Cut, Concat;
    var s := Hollow(x);
    var t := s.(queue := [[x]], moves := map[0 := S.Flight([], 2, 1)]);
    assert s.queue[1..] == [[x]] && t.queue[1..] == [];
    assert |t.moves| == 1;
    S.CutUnfolds(s, 28, 1, 1, 2);
    S.CutUnfolds(t, 16, 1, 1, 2);
    NothingCut(Hollowed(x), 3, 1, 1, CFG);
    assert S.CutOnce(s, 10, 2) == t;
    assert S.CutOnce(t, 4, 2) == Hollowed(x);
    assert [Move(0, [])] + ([Move(0, [x])] + []) == [Move(0, []), Move(0, [x])];
  }

  lemma HollowSent(x: byte)
    ensures S.Imbue(Hollow(x), 28, 1, 1, CFG) == S.Burst(Hollowed(x), [Move(0, []), Move(0, [x])], 3, true)
  {
    hide S.Cut, S.Resend, S.EchoEdges;
    NothingRepeated(Hollow(x), 28, 1, 1, 2);
    HollowCuts(x);
    NoEchoes(Hollowed(x), 3);
    assert [] + [Move(0, []), Move(0, [x])] + [] == [Move(0, []), Move(0, [x])];
  }

  function HollowPacket(x: byte): Packet { Packet(7, [Ping(1), Move(0, []), Move(0, [x])]) }

  lemma HollowProduced(n: Node, x: byte)
    requires n == InitNode(CFG).(conn := Established(), ost := Hollow(x), ist := Announced(CFG).(edgeTime := Never), declined := n.declined)
    ensures NodeOk(n, CFG)
    ensures Produce(n, 1, 1, CFG) ==
            Produced(n.(conn := Established().(jobs := map[C.PING := 2]), ost := Hollowed(x)), HollowPacket(x).sections, false)
  {
    hide C.Imbue, R.Imbue, S.Imbue, S.Sound;
    HollowWritten(x);
    PingSent(40);
    JustEdge(n.ist, 28, 1, 1);
    HollowSent(x);
    assert [Ping(1)] + [] + [Move(0, []), Move(0, [x])] == HollowPacket(x).sections;
  }

  /** The peer maps the empty fragment, drops the real one and acknowledges both. */
  function Deaf(): R.Receiver { Announced(CFG).(data := map[0 := []], acks := {0}) }

  lemma HollowHeard(n: Node, x: byte)
    requires n == InitNode(CFG).(conn := Answered(), ost := Credited(CFG), ist := Announced(CFG))
    ensures NodeOk(n, CFG)
    ensures Feed(n, HollowPacket(x), 1, CFG) == n.(conn := Answered().(jobs := map[C.PING_ECHO := 1]), ist := Deaf())
  {
    var r := n.ist;
    var r1 := R.OnMove(r, 0, []);
    assert r1.data == map[0 := []] && r1.data.Keys == {0} && r1.acks == {0};
    assert MaxOf({0}) == 0;
    assert R.OnMove(r1, 0, [x]) == r1 == Deaf();
    ScanThree(r, Ping(1), Move(0, []), Move(0, [x]), CFG);
    SendThree(n.ost, Ping(1), Move(0, []), Move(0, [x]));
    ConnThree(n.conn.(seen := At(1)), 7, Ping(1), Move(0, []), Move(0, [x]), 1, CFG);
    hide R.Scan, S.Parse, C.ParseAll, R.OnMove;
    R.TransmitUnfolds(Deaf());
  }

  const HOLLOW_ACK: Packet := Packet(9, [PingEcho(1), MoveEcho(0)])

  /** A sender with nothing to do leaves the packet as it is. */
  lemma Nothing(s: S.Sender, room: nat)
    requires s == Credited(CFG)
    ensures S.Imbue(s, room, 1, 1, CFG) == S.Burst(s, [], room, true)
  {
    hide S.Cut, S.Resend, S.EchoEdges;
    NothingRepeated(s, room, 1, 1, 2);
    NothingCut(s, room, 1, 1, CFG);
    NoEchoes(s, room);
  }

  lemma PingAnswered(room: nat)
    requires room == 40
    ensures var c := Answered().(jobs := map[C.PING_ECHO := 1]);
            C.Imbue(c, room, 1, 1, CFG) == C.Burst(Answered(), [PingEcho(1)], 28)
  {
    var c := Answered().(jobs := map[C.PING_ECHO := 1]);
    assert C.Ready(c, 1) == {C.PING_ECHO};
    OneJob(c, C.PING_ECHO, 40, 1, 1, CFG);
    assert c.jobs - {C.PING_ECHO} == map[];
  }

  lemma AckProduced(n: Node)
    requires n == InitNode(CFG).(conn := Answered().(jobs := map[C.PING_ECHO := 1]), ost := Credited(CFG), ist := Deaf())
    ensures NodeOk(n, CFG)
    ensures var r := Produce(n, 1, 1, CFG);
            r == Produced(n.(conn := Answered(), ist := Deaf().(acks := {})), HOLLOW_ACK.sections, false)
  {
    hide C.Imbue, R.Imbue, S.Imbue;
    PingAnswered(40);
    OneAck(n.ist, 0, 28, 1, 1);
    Nothing(n.ost, 16);
    assert [PingEcho(1)] + [MoveEcho(0)] + [] == HOLLOW_ACK.sections;
  }

  /** The acknowledgement settles the write. */
  lemma AckHeard(s: S.Sender, x: byte)
    requires s == Hollowed(x)
    ensures var t := S.Parse(s, HOLLOW_ACK.sections);
            && t.posted == [S.WritePost(10, NoBufferSpace, 0), S.WritePost(11, Success, 1)]
            && t.moves == map[] && t.queue == [] && t.alarms == [NoBufferSpace]
  {
    SenderTwo(s, PingEcho(1), MoveEcho(0));
    var s1 := s.(moves := s.moves - {0});
    assert s1.moves == map[];
    var w := s1.writers[0];
    var s2 := s1.(writers := s1.writers[1..], posted := s1.posted + [S.WritePost(w.id, Success, w.size)]);
    assert s2.writers == [];
    assert S.Settle(s1, 1) == S.Settle(s2, 1) == s2;
  }

  /** An established connection on which an empty write, and then one of a single byte, have been called. */
  lemma HollowCalled(x: byte) returns (v: System, s: System, w: System)
    ensures Reached(v, CFG) && ChannelRuns.Ready(v, CFG) && s == StepA(v, CallWrite([], 10), CFG)
    ensures ChannelRuns.Ready(s, CFG) && Legal(s, CallWrite([x], 11), CFG) && w == StepA(s, CallWrite([x], 11), CFG)
    ensures w.a.node.(declined := []) ==
            InitNode(CFG).(conn := Established(), ost := Hollow(x), ist := Announced(CFG).(edgeTime := Never))
    ensures w.b.node == InitNode(CFG).(conn := Answered(), ost := Credited(CFG), ist := Announced(CFG))
    ensures w.ab.written == [x]
  {
    v := Connected(CFG);
    hide Reached, StepA, Produce, S.Append, S.Sound;
    HollowWritten(x);
    s := Effects(v, CallWrite([], 10), CFG);
    w := Effects(s, CallWrite([x], 11), CFG);
    hide Sent;
    assert [] + [x] == [x];
  }

  /**
   * What an empty write can do: it is the only event of this run that is not legal. The write behind it is reported as
   * sent, but its byte is neither queued nor in flight, and the peer does not have it. The refusal has also posted
   * `on_error`, which closes the channel; the run is one in which the executor has not come to it by the end.
   */
  lemma EmptyWriteLosesBytes(x: byte) returns (v: System, es: seq<Turn>)
    ensures Reached(v, CFG) && ChannelRuns.Ready(v, CFG)
    ensures var s := StepA(v, CallWrite([], 10), CFG);
            && LegalRun(s, es, CFG)
            && var w := Exec(s, es, CFG);
               && w.ab.written == [x]
               && w.a.node.ost.posted == [S.WritePost(10, NoBufferSpace, 0), S.WritePost(11, Success, 1)]
               && w.a.node.ost.alarms == [NoBufferSpace]
               && !Queued(w.a.node.ost, [x], 0) && !InFlight(w.a.node.ost, [x], 0) && !AtReceiver(w.b.node.ist, [x], 0)
  {
    var s, w;
    v, s, w := HollowCalled(x);
    hide Reached, StepA, Produce, Feed, Legal, LegalRun, Exec, S.Sound;
    es := HollowRun(s, w, x);
  }

  lemma HollowRun(s: System, w: System, x: byte) returns (es: seq<Turn>)
    requires ChannelRuns.Ready(s, CFG) && Legal(s, CallWrite([x], 11), CFG) && w == StepA(s, CallWrite([x], 11), CFG)
    requires w.a.node.(declined := []) ==
             InitNode(CFG).(conn := Established(), ost := Hollow(x), ist := Announced(CFG).(edgeTime := Never))
    requires w.b.node == InitNode(CFG).(conn := Answered(), ost := Credited(CFG), ist := Announced(CFG))
    requires w.ab.written == [x]
    ensures LegalRun(s, es, CFG)
    ensures var w := Exec(s, es, CFG);
            && w.ab.written == [x]
            && w.a.node.ost.posted == [S.WritePost(10, NoBufferSpace, 0), S.WritePost(11, Success, 1)]
            && w.a.node.ost.alarms == [NoBufferSpace]
            && !Queued(w.a.node.ost, [x], 0) && !InFlight(w.a.node.ost, [x], 0) && !AtReceiver(w.b.node.ist, [x], 0)
  {
    es := Went(s, [], true, CallWrite([x], 11), CFG);
    hide StepA, LegalRun, Exec, Legal, ChannelRuns.Ready, Queued, InFlight, AtReceiver;
    var w1 := HollowLeaves(w, x);
    es := Went(s, es, true, Emit(1, 1, []), CFG);
    var w2, w3 := HollowArrives(Swap(w1), x);
    es := Went(s, es, false, Deliver(HollowPacket(x), 1), CFG);
    es := Went(s, es, false, Emit(1, 1, []), CFG);
    var w4 := HollowEnd(Swap(w3), HOLLOW_ACK, x);
    es := Went(s, es, true, Deliver(HOLLOW_ACK, 1), CFG);
  }

  lemma HollowLeaves(s: System, x: byte) returns (w: System)
    requires s.a.node.(declined := []) ==
             InitNode(CFG).(conn := Established(), ost := Hollow(x), ist := Announced(CFG).(edgeTime := Never))
    ensures ChannelRuns.Ready(s, CFG) && Legal(s, Emit(1, 1, []), CFG) && w == StepA(s, Emit(1, 1, []), CFG)
    ensures HollowPacket(x) in w.a.sent && w.b == s.b && w.ab.written == s.ab.written
    ensures w.a.node.(declined := []) ==
            InitNode(CFG).(conn := Established().(jobs := map[C.PING := 2]), ost := Hollowed(x), ist := Announced(CFG).(edgeTime := Never))
  {
    hide StepA, Produce, S.Sound, C.Imbue, Production;
    HollowProduced(s.a.node, x);
    w := Effects(s, Emit(1, 1, []), CFG);
    assert HollowPacket(x).sections + [] == HollowPacket(x).sections;
  }

  lemma HollowArrives(s: System, x: byte) returns (w1: System, w2: System)
    requires s.a.node == InitNode(CFG).(conn := Answered(), ost := Credited(CFG), ist := Announced(CFG)) && HollowPacket(x) in s.b.sent
    ensures ChannelRuns.Ready(s, CFG) && Legal(s, Deliver(HollowPacket(x), 1), CFG)
    ensures w1 == StepA(s, Deliver(HollowPacket(x), 1), CFG)
    ensures ChannelRuns.Ready(w1, CFG) && Legal(w1, Emit(1, 1, []), CFG) && w2 == StepA(w1, Emit(1, 1, []), CFG)
    ensures w2.b == s.b && w2.ba.written == s.ba.written && HOLLOW_ACK in w2.a.sent
    ensures w2.a.node.ist == Deaf().(acks := {})
  {
    hide StepA, Produce, Feed, S.Sound, C.Imbue, Production;
    HollowHeard(s.a.node, x);
    w1 := Effects(s, Deliver(HollowPacket(x), 1), CFG);
    AckProduced(w1.a.node);
    w2 := Effects(w1, Emit(1, 1, []), CFG);
    assert HOLLOW_ACK.sections + [] == HOLLOW_ACK.sections;
  }

  lemma HollowEnd(s: System, q: Packet, x: byte) returns (w: System)
    requires q == HOLLOW_ACK && q in s.b.sent && s.ab.written == [x]
    requires s.a.node.(declined := []) ==
             InitNode(CFG).(conn := Established().(jobs := map[C.PING := 2]), ost := Hollowed(x), ist := Announced(CFG).(edgeTime := Never))
    requires s.b.node.ist == Deaf().(acks := {})
    ensures ChannelRuns.Ready(s, CFG) && Legal(s, Deliver(q, 1), CFG) && w == StepA(s, Deliver(q, 1), CFG)
    ensures w.ab.written == [x]
    ensures w.a.node.ost.posted == [S.WritePost(10, NoBufferSpace, 0), S.WritePost(11, Success, 1)]
    ensures w.a.node.ost.alarms == [NoBufferSpace]
    ensures !Queued(w.a.node.ost, [x], 0) && !InFlight(w.a.node.ost, [x], 0) && !AtReceiver(w.b.node.ist, [x], 0)
  {
    hide StepA, Produce, C.Imbue, S.Parse, R.Parse, Harmless, Production;
    assert NodeOk(s.a.node, CFG);
    AckHeard(s.a.node.ost, x);
    AckConn(s.a.node.conn);
    w := Effects(s, Deliver(q, 1), CFG);
    assert RL.Delivered(w.b.node.ist) == [];
  }

  lemma AckConn(c: C.Connector)
    requires c == Established().(jobs := map[C.PING := 2])
    ensures C.Parse(c, 9, HOLLOW_ACK.sections, 1, CFG).status == C.Linked
  {
    ConnTwo(c.(seen := At(1)), 9, PingEcho(1), MoveEcho(0), 1, CFG);
  }
}
