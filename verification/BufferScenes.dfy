/** A run in which bytes that an application wrote earlier come back as a fragment that nobody sent. */
module BufferScenes {
  import opened Containers
  import opened Protocol
  import opened Channel
  import opened ChannelRuns
  import opened ChannelTheorems
  import opened ChannelSteps
  import opened ChannelBytes
  import opened OpenBodies
  import opened OpenBodyRuns
  import K = Keystream
  import C = Connecting
  import S = Sending
  import R = Receiving
  import RL = ReceiverLaws
  import P = PacketCodec
  import U = UdpTransport

  /** Room for a payload of 18 bytes, two flights, two attempts. */
  const WIDE: Config := Config(40, 40, 2, 2, 96, 2, 0, 0, 0)

  /** The encoding of a fragment under handle 19, and a stub. */
  function Bait(z: byte): seq<byte> {
    P.EncodeSection(Move(19, [z])) + [0, 0, 0, 0]
  }

  function Payload(z: byte): (d: seq<byte>)
    ensures |d| == 18
  {
    [0] + Bait(z)
  }

  // ---------------------------------------------------------------- the sender's passes

  function Sending0(queue: seq<seq<byte>>, head: nat, moves: map<nat, S.Flight>, writers: seq<S.Writer>, acks: set<nat>,
                    posted: seq<S.WritePost>): S.Sender {
    S.Sender(queue, head, head + |Concat(queue)|, moves, writers, acks, 40, posted, [])
  }

  const W0: S.Writer := S.Writer(0, 18, 9)
  const WX: S.Writer := S.Writer(18, 1, 10)
  const WY: S.Writer := S.Writer(19, 1, 11)
  const DONE: seq<S.WritePost> := [S.WritePost(9, Success, 18)]

  lemma One(d: seq<byte>)
    ensures Concat([d]) == d && Concat<byte>([]) == []
  {
    assert Concat([d]) == d + Concat([]);
  }

  /** What a pass does that cuts all of the one chunk queued, with nothing due. */
  lemma CutsChunk(s: S.Sender, d: seq<byte>, room: nat, now: nat, repeat: nat)
    requires s.queue == [d] && 0 < |d| && s.head + |d| <= s.range && |d| + 12 <= room && |s.moves| < 2
    requires s.head !in s.moves && forall h :: h in s.moves ==> s.moves[h].time >= now
    ensures var t := s.(queue := [], head := s.head + |d|, moves := s.moves[s.head := S.Flight(d, now + repeat, 1)]);
            var b := S.Resend(s, room, now, repeat, 2);
            && b == S.Burst(s, [], room, true)
            && S.Cut(s, room, now, repeat, 2) == S.Burst(t, [Move(s.head, d)], room - 12 - |d|, true)
  {
    hide S.Cut, S.Resend;
    NothingRepeated(s, room, now, repeat, 2);
    var t := s.(queue := [], head := s.head + |d|, moves := s.moves[s.head := S.Flight(d, now + repeat, 1)]);
    var max := S.CutLimit(s, room, 2);
    assert max >= |d| && s.queue[1..] == [];
    assert S.CutOnce(s, max, now + repeat) == t;
    S.CutUnfolds(s, room, now, repeat, 2);
    NothingCut(t, room - 12 - |d|, now, repeat, WIDE);
    assert [Move(s.head, d)] + [] == [Move(s.head, d)];
  }

  lemma PayloadSent(z: byte)
    ensures var s := Sending0([Payload(z)], 0, map[], [W0], {40}, []);
            var t := Sending0([], 18, map[0 := S.Flight(Payload(z), 10, 1)], [W0], {}, []);
            var b := S.Imbue(s, 68, 1, 9, WIDE);
            && S.Sound(s, WIDE) && b.ok && b.sender == t && b.sections == [Move(0, Payload(z)), EdgeEcho(40)]
  {
    hide S.Cut, S.Resend, S.EchoEdges, Payload, Concat;
    One(Payload(z));
    var s := Sending0([Payload(z)], 0, map[], [W0], {40}, []);
    CutsChunk(s, Payload(z), 68, 1, 9);
    var t := Sending0([], 18, map[0 := S.Flight(Payload(z), 10, 1)], [W0], {40}, []);
    OneEcho(t, 40, 38);
    assert [] + [Move(0, Payload(z))] + [EdgeEcho(40)] == [Move(0, Payload(z)), EdgeEcho(40)];
  }

  function FlightX(x: byte): map<nat, S.Flight> { map[18 := S.Flight([x], 10, 1)] }

  function Flights(x: byte, y: byte, time: nat, attempt: nat): map<nat, S.Flight> {
    map[18 := S.Flight([x], 10, 1), 19 := S.Flight([y], time, attempt)]
  }

  lemma OlderSent(x: byte)
    ensures var s := Sending0([[x]], 18, map[], [WX], {}, DONE);
            var b := S.Imbue(s, 80, 1, 9, WIDE);
            S.Sound(s, WIDE) && b.ok && b.sender == Sending0([], 19, FlightX(x), [WX], {}, DONE) && b.sections == [Move(18, [x])]
  {
    hide S.Cut, S.Resend, S.EchoEdges, Concat;
    One([x]);
    var s := Sending0([[x]], 18, map[], [WX], {}, DONE);
    CutsChunk(s, [x], 80, 1, 9);
    NoEchoes(Sending0([], 19, FlightX(x), [WX], {}, DONE), 67);
    assert [] + [Move(18, [x])] + [] == [Move(18, [x])];
  }

  lemma YoungerSent(x: byte, y: byte)
    ensures var s := Sending0([[y]], 19, FlightX(x), [WX, WY], {}, DONE);
            var b := S.Imbue(s, 80, 1, 1, WIDE);
            && S.Sound(s, WIDE) && b.ok
            && b.sender == Sending0([], 20, Flights(x, y, 2, 1), [WX, WY], {}, DONE) && b.sections == [Move(19, [y])]
  {
    hide S.Cut, S.Resend, S.EchoEdges, Concat;
    One([y]);
    var s := Sending0([[y]], 19, FlightX(x), [WX, WY], {}, DONE);
    assert |s.moves| == 1;
    CutsChunk(s, [y], 80, 1, 1);
    NoEchoes(Sending0([], 20, Flights(x, y, 2, 1), [WX, WY], {}, DONE), 67);
    assert [] + [Move(19, [y])] + [] == [Move(19, [y])];
  }

  lemma YoungerAgain(x: byte, y: byte)
    ensures var s := Sending0([], 20, Flights(x, y, 2, 1), [WX, WY], {}, DONE);
            var b := S.Imbue(s, 80, 3, 17, WIDE);
            && S.Sound(s, WIDE) && b.ok
            && b.sender == Sending0([], 20, Flights(x, y, 20, 2), [WX, WY], {}, DONE) && b.sections == [Move(19, [y])]
  {
    hide S.Cut, S.Resend, S.EchoEdges;
    var s := Sending0([], 20, Flights(x, y, 2, 1), [WX, WY], {}, DONE);
    var t := Sending0([], 20, Flights(x, y, 20, 2), [WX, WY], {}, DONE);
    assert S.Eligible(s, 80, 3) == {19};
    assert MinOf({19}) == 19;
    assert S.Repeated(s, 19, 20) == t;
    S.ResendUnfolds(s, 80, 3, 17, 2);
    NothingRepeated(t, 67, 3, 17, 2);
    NothingCut(t, 67, 3, 17, WIDE);
    NoEchoes(t, 67);
    assert [Move(19, [y])] + [] + [] == [Move(19, [y])];
  }

  /** The older flight is repeated, then the younger one is given up. */
  lemma OlderAgain(x: byte, y: byte)
    ensures var s := Sending0([], 20, Flights(x, y, 20, 2), [WX, WY], {}, DONE);
            var b := S.Imbue(s, 68, 21, 1, WIDE);
            S.Sound(s, WIDE) && !b.ok && b.sections == [Move(18, [x])]
  {
    hide S.Imbue;
    GivesUpBehind(Sending0([], 20, Flights(x, y, 20, 2), [WX, WY], {}, DONE), 18, 19, 68, 21, 1, WIDE);
  }

  // ---------------------------------------------------------------- the bytes

  /** The bait lies where the next open body will end. */
  ghost predicate Baited(buffer: seq<byte>, z: byte) {
    |buffer| == WIDE.packetSize && buffer[41..58] == Bait(z)
  }

  /** The first packet of data leaves it there. */
  lemma PayloadStored(buffer: seq<byte>, z: byte)
    requires |buffer| == WIDE.packetSize
    ensures SizeOfAll([Ping(1), Move(0, Payload(z)), EdgeEcho(40)]) == 54
    ensures Baited(P.Closed(buffer, 7, [Ping(1), Move(0, Payload(z)), EdgeEcho(40)]), z)
  {
    hide P.Header, P.Encode, P.EncodeSection, Bait, Payload, P.BigEndian;
    var xs := [Ping(1), Move(0, Payload(z)), EdgeEcho(40)];
    var lead := Lead();
    PayloadEncoded(z);
    var before := P.Header(7) + P.EncodeSection(Ping(1)) + lead;
    var after := P.EncodeSection(EdgeEcho(40)) + seq(4, _ => 0) + buffer[74..];
    assert P.Closed(buffer, 7, xs) == before + Bait(z) + after;
    assert |before| == 41;
  }

  function Lead(): (s: seq<byte>)
    ensures |s| == 13
  {
    P.BigEndian(8, 2) + P.BigEndian(26, 2) + P.BigEndian(0, 8) + [0]
  }

  lemma PayloadEncoded(z: byte)
    ensures var xs := [Ping(1), Move(0, Payload(z)), EdgeEcho(40)];
            && SizeOfAll(xs) == 54 && |Bait(z)| == 17
            && P.Encode(xs) == P.EncodeSection(Ping(1)) + Lead() + Bait(z) + P.EncodeSection(EdgeEcho(40))
  {
    hide P.BigEndian;
    var xs := [Ping(1), Move(0, Payload(z)), EdgeEcho(40)];
    assert P.EncodeSection(Move(0, Payload(z))) == Lead() + Bait(z);
    hide P.EncodeSection, Bait, Lead;
    assert xs[1..] == [Move(0, Payload(z)), EdgeEcho(40)] && xs[1..][1..] == [EdgeEcho(40)] && xs[1..][1..][1..] == [];
    assert SizeOfAll([EdgeEcho(40)]) == 12 + SizeOfAll([]);
    assert P.Encode([EdgeEcho(40)]) == P.EncodeSection(EdgeEcho(40)) + P.Encode([]);
    assert P.Encode(xs) == P.EncodeSection(Ping(1)) + (P.EncodeSection(Move(0, Payload(z))) + P.Encode([EdgeEcho(40)]));
  }

  /** A packet of one fragment of a byte does not reach it. */
  lemma BaitStays(buffer: seq<byte>, h: nat, d: byte, z: byte)
    requires Baited(buffer, z)
    ensures SizeOfAll([Move(h, [d])]) == 13
    ensures Baited(P.Closed(buffer, 7, [Move(h, [d])]), z)
  {
    hide P.Header, P.Encode, Bait;
    assert [Move(h, [d])][1..] == [];
    var closed := P.Closed(buffer, 7, [Move(h, [d])]);
    assert closed[33..] == buffer[33..];
    assert closed[41..58] == closed[33..][8..25] == buffer[33..][8..25];
  }

  /** Behind an open body the peer reads the bait as a section. */
  lemma BaitRead(buffer: seq<byte>, z: byte)
    requires Baited(buffer, z)
    ensures P.StubWalk(buffer[41..]) == P.Stopped(13)
    ensures P.ParseBody(buffer[41..][..13]) == P.Body([Move(19, [z])], P.Flawless)
  {
    hide P.EncodeSection, P.StubWalk, P.ParseBody, P.Number;
    var section := P.EncodeSection(Move(19, [z]));
    var rest := [0, 0, 0, 0] + buffer[58..];
    assert buffer[41..] == buffer[41..58] + buffer[58..] == section + rest;
    P.StubHolds(rest, 0);
    assert rest[0..] == rest;
    P.StubWalkUnfolds(rest);
    P.WalkFirst(Move(19, [z]), rest);
    assert buffer[41..][..13] == section + [];
    P.ParseFirst(Move(19, [z]), []);
    P.StubEnds([]);
  }

  // ---------------------------------------------------------------- one event at a time

  /** A state of a byte run that has been legal so far. */
  ghost predicate Standing(m: Memory, host: K.Host) {
    ByteReached(m, host, 0, WIDE) && Reached(m.sys, WIDE) && Able(m, WIDE) && ChannelRuns.Ready(Swap(m.sys), WIDE)
  }

  lemma Turned(m: Memory, host: K.Host)
    requires Standing(m, host)
    ensures Standing(Mirror(m), host)
  {
    hide ByteReached, Reached, ChannelRuns.Ready;
    ByteMirrored(m, host, 0, WIDE);
    SwapReached(m.sys, WIDE);
  }

  /** Any event that produces no packet. */
  lemma Does(m: Memory, e: Event, w: System, host: K.Host) returns (n: Memory)
    requires Standing(m, host) && !e.Emit? && Legal(m.sys, e, WIDE) && w == StepA(m.sys, e, WIDE)
    requires Reached(w, WIDE) && ChannelRuns.Ready(w, WIDE) && ChannelRuns.Ready(Swap(w), WIDE)
    ensures Standing(n, host) && n.sys == w && n.mine == m.mine && n.theirs == m.theirs
  {
    hide ByteReached, Reached, Legal, StepA, ChannelRuns.Ready;
    ByteGoesOn(m, e, host, 0, 0, WIDE);
    n := ByteStep(m, e, host, 0, 0, WIDE);
  }

  /** A packet with a closed body. */
  lemma Sends(m: Memory, now: nat, repeat: nat, r: Produced, host: K.Host) returns (n: Memory)
    requires Standing(m, host) && m.sys.a.node.conn.status != C.Initial && m.sys.a.node.conn.status != C.Finished
    requires r == Produce(m.sys.a.node, now, repeat, WIDE) && !r.leftOpen && r.sections != []
    ensures Standing(n, host)
    ensures n.sys.a.node == r.node && n.sys.b == m.sys.b
    ensures n.sys.a.sent == m.sys.a.sent + {Packet(m.sys.a.node.conn.local, r.sections)}
    ensures n.sys.ab.written == m.sys.ab.written && n.sys.ba.written == m.sys.ba.written
    ensures n.sys.a.trail.role == m.sys.a.trail.role && n.theirs == m.theirs
    ensures P.HEADER + SizeOfAll(r.sections) <= |m.mine| && n.mine == P.Closed(m.mine, m.sys.a.node.conn.local, r.sections)
  {
    hide ByteReached, Reached, StepA, NodeOk, Produce, P.Closed, SizeOfAll;
    var e := Emit(now, repeat, []);
    var w := Emitted(m.sys, now, repeat, r, WIDE);
    ProduceFits(m.sys.a.node, now, repeat, WIDE);
    ByteGoesOn(m, e, host, 0, 0, WIDE);
    n := ByteStep(m, e, host, 0, 0, WIDE);
  }

  // ---------------------------------------------------------------- connecting

  lemma CallsMade(mine: seq<byte>, theirs: seq<byte>, host: K.Host) returns (m: Memory)
    requires |mine| == |theirs| == WIDE.packetSize
    ensures Standing(m, host)
    ensures m.sys.a.node == InitNode(WIDE).(conn := Calling(WIDE).(jobs := map[C.LINK := 0]))
    ensures m.sys.b.node == InitNode(WIDE).(conn := Listening(WIDE))
    ensures m.sys.ab.written == []
  {
    hide ByteReached, Reached, StepA, NodeOk, Channel.Connect, Channel.Accept, InitNode;
    OpenedReached(mine, theirs, host, 0, WIDE);
    StartReached(WIDE);
    BothReady(Start(WIDE), WIDE);
    AskedNodes(WIDE);
    m := Opened(mine, theirs, WIDE);
    var w := Called(m.sys, CallConnect(1, 7, 1), WIDE);
    m := Does(m, CallConnect(1, 7, 1), w, host);
    Turned(m, host);
    m := Mirror(m);
    w := Called(m.sys, CallAccept(2, 9, 1), WIDE);
    m := Does(m, CallAccept(2, 9, 1), w, host);
    Turned(m, host);
    m := Mirror(m);
  }

  /** An established connection whose listener waits for 20 bytes. */
  lemma Ready20(mine: seq<byte>, theirs: seq<byte>, host: K.Host) returns (m: Memory)
    requires |mine| == |theirs| == WIDE.packetSize
    ensures Standing(m, host)
    ensures CallerIs(m.sys.a.node, 0, S.InitSender().(range := 40, acks := {40}), WIDE) && m.sys.a.node.conn.status == C.Linked
    ensures m.sys.b.node == Listener(Answered(), Asking20(), WIDE)
    ensures m.sys.ab.written == []
  {
    m := Linked(mine, theirs, host);
    hide Standing, StepA, Legal, ChannelRuns.Ready, Reached;
    Turned(m, host);
    m := Mirror(m);
    AtFacts(m, host);
    LegalRead(m.sys, 20, 20, WIDE);
    var w := Called(m.sys, CallRead(20, 20), WIDE);
    R.TransmitUnfolds(Asking20());
    assert w.a.node.ist == Asking20();
    m := Does(m, CallRead(20, 20), w, host);
    Turned(m, host);
    m := Mirror(m);
  }

  lemma AtFacts(m: Memory, host: K.Host)
    requires Standing(m, host)
    ensures Reached(m.sys, WIDE) && ChannelRuns.Ready(m.sys, WIDE) && ChannelRuns.Ready(Swap(m.sys), WIDE)
    ensures |m.mine| == WIDE.packetSize
  {
    hide ByteReached, Reached, ChannelRuns.Ready;
  }

  function Asking20(): R.Receiver { Announced(WIDE).(readers := [R.Reader(20, [], 20)]) }

  lemma Linked(mine: seq<byte>, theirs: seq<byte>, host: K.Host) returns (m: Memory)
    requires |mine| == |theirs| == WIDE.packetSize
    ensures Standing(m, host)
    ensures m.sys.a.node == InitNode(WIDE).(conn := Established(), ost := Credited(WIDE).(acks := {40}),
                                            ist := Announced(WIDE).(edgeTime := Never))
    ensures m.sys.b.node == InitNode(WIDE).(conn := Answered(), ost := Credited(WIDE), ist := Announced(WIDE))
    ensures m.sys.ab.written == []
  {
    m := CallsMade(mine, theirs, host);
    hide Standing, Produce, Feed, StepA, NodeOk, ChannelRuns.Ready, Reached, P.Closed, Announced, Credited;
    Phases();
    HelloProduced(WIDE);
    m := Sends(m, 1, 1, Produce(m.sys.a.node, 1, 1, WIDE), host);
    Turned(m, host);
    m := Mirror(m);
    HelloHeard(WIDE);
    m := Hears(m, Hello(WIDE), 1, host);
    WelcomeProduced(WIDE);
    m := Sends(m, 1, 1, Produce(m.sys.a.node, 1, 1, WIDE), host);
    Turned(m, host);
    m := Mirror(m);
    WelcomeHeard(WIDE);
    m := Hears(m, Welcome(WIDE), 1, host);
  }

  lemma Phases()
    ensures Calling(WIDE).status == C.Connecting && Calling(WIDE).local == 7 && C.Admits(Calling(WIDE), 9)
    ensures Listening(WIDE).status == C.Accepting && Listening(WIDE).local == 9 && C.Admits(Listening(WIDE), 7)
  {
  }

  lemma Hears(m: Memory, p: Packet, now: nat, host: K.Host) returns (n: Memory)
    requires Standing(m, host) && p in m.sys.b.sent && C.Admits(m.sys.a.node.conn, p.pin)
    ensures Standing(n, host) && ChannelRuns.Ready(m.sys, WIDE)
    ensures n.sys.a.node == Feed(m.sys.a.node, p, now, WIDE) && n.sys.b == m.sys.b && n.mine == m.mine && n.theirs == m.theirs
    ensures n.sys.ab.written == m.sys.ab.written && n.sys.ba.written == m.sys.ba.written && n.sys.a.sent == m.sys.a.sent
  {
    hide Standing, StepA, ChannelRuns.Ready, Reached, Feed;
    AtFacts(m, host);
    var w := Heard(m.sys, p, now, WIDE);
    n := Does(m, Deliver(p, now), w, host);
  }

  // ---------------------------------------------------------------- the payload goes out and is acknowledged

  const ACK: Packet := Packet(9, [PingEcho(1), MoveEcho(0)])

  function Carrier(z: byte): Packet { Packet(7, [Ping(1), Move(0, Payload(z)), EdgeEcho(40)]) }

  /** The listener's reader holds the payload and waits for two more bytes. */
  function Half(z: byte, acks: set<nat>): R.Receiver {
    R.Receiver(18, 18, map[], acks, [R.Reader(20, Payload(z), 20)], 40, Never, [], [])
  }

  lemma PayloadServed(z: byte)
    ensures R.FillsFit(Asking20()) && R.Parse(Asking20(), Carrier(z).sections, WIDE) == Half(z, {0})
  {
    hide Payload;
    var r := Asking20();
    var r1 := R.OnMove(r, 0, Payload(z));
    assert r1.data == map[0 := Payload(z)] && r1.data.Keys == {0} && r1.acks == {0};
    assert MaxOf({0}) == 0 && MinOf({0}) == 0;
    var r2 := r1.(edgeTime := Never);
    ScanThree(r, Ping(1), Move(0, Payload(z)), EdgeEcho(40), WIDE);
    hide R.Scan, R.OnMove;
    assert [] + Payload(z) == Payload(z);
    assert r2.readers[0 := R.Reader(20, Payload(z), 20)] == [R.Reader(20, Payload(z), 20)];
    assert r2.data - {0} == map[];
    assert R.Step(r2) == Half(z, {0});
    R.TransmitUnfolds(r2);
    R.TransmitUnfolds(Half(z, {0}));
  }

  lemma PayloadHeard(z: byte)
    ensures var n := Listener(Answered(), Asking20(), WIDE);
            && NodeOk(n, WIDE)
            && Feed(n, Carrier(z), 1, WIDE) == Listener(Answered().(jobs := map[C.PING_ECHO := 1]), Half(z, {0}), WIDE)
  {
    hide R.Parse, S.Parse, C.ParseAll, R.Scan, Payload;
    PayloadServed(z);
    SendThree(Credited(WIDE), Ping(1), Move(0, Payload(z)), EdgeEcho(40));
    ConnThree(Answered().(seen := At(1)), 7, Ping(1), Move(0, Payload(z)), EdgeEcho(40), 1, WIDE);
  }

  lemma PayloadAcknowledged(z: byte)
    ensures var n := Listener(Answered().(jobs := map[C.PING_ECHO := 1]), Half(z, {0}), WIDE);
            && NodeOk(n, WIDE)
            && Produce(n, 1, 1, WIDE) == Produced(Listener(Answered(), Half(z, {}), WIDE), ACK.sections, false)
  {
    hide C.Imbue, R.Imbue, S.Imbue, Payload;
    PingAnswered(80, WIDE);
    OneAck(Half(z, {0}), 0, 68, 1, 1);
    Nothing(56, 1, 1, WIDE);
    assert [PingEcho(1)] + [MoveEcho(0)] + [] == ACK.sections;
  }

  lemma AckHeard(n: Node, z: byte)
    requires CallerIs(n, 10, Sending0([], 18, map[0 := S.Flight(Payload(z), 10, 1)], [W0], {}, []), WIDE)
    ensures NodeOk(n, WIDE) && C.Admits(n.conn, 9)
    ensures CallerIs(Feed(n, ACK, 1, WIDE), 3, Sending0([], 18, map[], [], {}, DONE), WIDE)
  {
    hide R.Parse, R.Scan, S.Parse, C.ParseAll, Payload, R.Transmit;
    ScanNothing(n.ist, ACK.sections, WIDE);
    AckSettles(n.ost, z);
    ConnTwo(n.conn.(seen := At(1)), 9, PingEcho(1), MoveEcho(0), 1, WIDE);
    assert map[C.PING := 10] - {C.PING} == map[];
  }

  lemma AckSettles(s: S.Sender, z: byte)
    requires s == Sending0([], 18, map[0 := S.Flight(Payload(z), 10, 1)], [W0], {}, [])
    ensures S.Parse(s, ACK.sections) == Sending0([], 18, map[], [], {}, DONE)
  {
    SenderTwo(s, PingEcho(1), MoveEcho(0));
    var s1 := s.(moves := s.moves - {0});
    assert s1.moves == map[];
    var s2 := s1.(writers := s1.writers[1..], posted := s1.posted + [S.WritePost(9, Success, 18)]);
    assert s2.writers == [] && s2.posted == DONE;
    assert S.Settle(s1, 18) == S.Settle(s2, 18) == s2;
  }

  /** The payload has been written, sent, and acknowledged; its bytes still stand in the buffer. */
  lemma PayloadPassed(mine: seq<byte>, theirs: seq<byte>, z: byte, host: K.Host) returns (m: Memory)
    requires |mine| == |theirs| == WIDE.packetSize
    ensures Standing(m, host) && Baited(m.mine, z)
    ensures CallerIs(m.sys.a.node, 3, Sending0([], 18, map[], [], {}, DONE), WIDE)
    ensures m.sys.b.node == Listener(Answered(), Half(z, {}), WIDE)
    ensures m.sys.ab.written == Payload(z)
  {
    hide Standing, Feed, NodeOk, Baited, Payload, Bait, Half, Sending0, Listener, CallerIs;
    m := PayloadLeaves(mine, theirs, z, host);
    Turned(m, host);
    m := Answers(Mirror(m), z, host);
    Turned(m, host);
    m := Mirror(m);
    AckHeard(m.sys.a.node, z);
    m := Hears(m, ACK, 1, host);
  }

  /** The listener takes the payload and acknowledges it. */
  lemma Answers(m: Memory, z: byte, host: K.Host) returns (n: Memory)
    requires Standing(m, host) && m.sys.a.node == Listener(Answered(), Asking20(), WIDE) && Carrier(z) in m.sys.b.sent
    ensures Standing(n, host) && n.sys.b == m.sys.b && n.theirs == m.theirs && n.sys.ba.written == m.sys.ba.written
    ensures n.sys.a.node == Listener(Answered(), Half(z, {}), WIDE) && ACK in n.sys.a.sent
  {
    hide Standing, Produce, Feed, NodeOk, Reached, P.Closed, Payload, Half, Asking20;
    PinsFit(WIDE);
    PayloadHeard(z);
    n := Hears(m, Carrier(z), 1, host);
    PayloadAcknowledged(z);
    n := Sends(n, 1, 1, Produce(n.sys.a.node, 1, 1, WIDE), host);
  }

  lemma PayloadLeaves(mine: seq<byte>, theirs: seq<byte>, z: byte, host: K.Host) returns (m: Memory)
    requires |mine| == |theirs| == WIDE.packetSize
    ensures Standing(m, host) && Baited(m.mine, z)
    ensures CallerIs(m.sys.a.node, 10, Sending0([], 18, map[0 := S.Flight(Payload(z), 10, 1)], [W0], {}, []), WIDE)
    ensures m.sys.b.node == Listener(Answered(), Asking20(), WIDE)
    ensures m.sys.ab.written == Payload(z) && Carrier(z) in m.sys.a.sent
  {
    m := Ready20(mine, theirs, host);
    hide Standing, Produce, StepA, ChannelRuns.Ready, Reached, P.Closed, Baited, Payload, Bait, S.Imbue, S.Sound, Concat;
    m := Writes(m, Payload(z), 9, [], host);
    One(Payload(z));
    assert [] + Payload(z) == Payload(z) && [] + [W0] == [W0];
    assert m.sys.a.node.ost == Sending0([Payload(z)], 0, map[], [W0], {40}, []);
    m := SendsPayload(m, z, host);
  }

  lemma SendsPayload(m: Memory, z: byte, host: K.Host) returns (n: Memory)
    requires Standing(m, host) && CallerIs(m.sys.a.node, 0, Sending0([Payload(z)], 0, map[], [W0], {40}, []), WIDE)
    ensures Standing(n, host) && Baited(n.mine, z) && n.sys.b == m.sys.b && n.sys.ab.written == m.sys.ab.written
    ensures CallerIs(n.sys.a.node, 10, Sending0([], 18, map[0 := S.Flight(Payload(z), 10, 1)], [W0], {}, []), WIDE)
    ensures Carrier(z) in n.sys.a.sent
  {
    hide Standing, Produce, ChannelRuns.Ready, P.Closed, Baited, Payload, S.Imbue, S.Sound, Sending0;
    AtFacts(m, host);
    PayloadSent(z);
    Composed(m.sys.a.node, 0, m.sys.a.node.ost, 1, 9, WIDE);
    var r := Produce(m.sys.a.node, 1, 9, WIDE);
    assert r.sections == Carrier(z).sections;
    n := Sends(m, 1, 9, r, host);
    PayloadStored(m.mine, z);
  }

  /** A write behind everything cut so far. */
  lemma Writes(m: Memory, d: seq<byte>, id: nat, writers: seq<S.Writer>, host: K.Host) returns (n: Memory)
    requires Standing(m, host) && m.sys.a.node.conn.status == C.Linked && 0 < |d| < 40
    requires var s := m.sys.a.node.ost; s.queue == [] && s.head == s.tail && s.writers == writers
    ensures Standing(n, host) && n.mine == m.mine && n.sys.b == m.sys.b && n.sys.ab.written == m.sys.ab.written + d
    ensures var s := m.sys.a.node.ost;
            n.sys.a.node == m.sys.a.node.(ost := s.(queue := [d], tail := s.tail + |d|, writers := writers + [S.Writer(s.tail, |d|, id)]))
  {
    hide Standing, StepA, ChannelRuns.Ready, Reached, Legal;
    AtFacts(m, host);
    var w := Wrote(m.sys, d, id, writers, WIDE);
    n := Does(m, CallWrite(d, id), w, host);
  }

  // ---------------------------------------------------------------- two flights and an open body

  /** A packet of one fragment of a byte, without a ping. */
  lemma SendsByte(m: Memory, s: S.Sender, t: S.Sender, h: nat, d: byte, now: nat, repeat: nat, z: byte, host: K.Host)
    returns (n: Memory)
    requires Standing(m, host) && CallerIs(m.sys.a.node, 3, s, WIDE) && S.Sound(s, WIDE) && 1 <= now <= 3 && Baited(m.mine, z)
    requires s.head <= s.range
    requires var b := S.Imbue(s, 80, now, repeat, WIDE); b.ok && b.sender == t && b.sections == [Move(h, [d])]
    ensures Standing(n, host) && Baited(n.mine, z) && CallerIs(n.sys.a.node, 3, t, WIDE)
    ensures n.sys.b == m.sys.b && n.sys.ab.written == m.sys.ab.written
  {
    hide Standing, Produce, P.Closed, Baited, S.Imbue, S.Sound;
    AtFacts(m, host);
    Composed(m.sys.a.node, 3, s, now, repeat, WIDE);
    var r := Produce(m.sys.a.node, now, repeat, WIDE);
    assert r.sections == [Move(h, [d])];
    n := Sends(m, now, repeat, r, host);
    BaitStays(m.mine, h, d, z);
  }

  /** The next packet would repeat the older flight and give up the younger one, and the bait lies behind it. */
  lemma Set(mine: seq<byte>, theirs: seq<byte>, x: byte, y: byte, z: byte, host: K.Host) returns (m: Memory)
    requires |mine| == |theirs| == WIDE.packetSize
    ensures Standing(m, host) && Baited(m.mine, z)
    ensures CallerIs(m.sys.a.node, 3, Sending0([], 20, Flights(x, y, 20, 2), [WX, WY], {}, DONE), WIDE)
    ensures m.sys.b.node == Listener(Answered(), Half(z, {}), WIDE)
    ensures m.sys.ab.written == Payload(z) + [x, y]
  {
    hide Standing, Baited, Payload, Half, CallerIs, Sending0;
    m := PayloadPassed(mine, theirs, z, host);
    m := OlderFlies(m, x, z, host);
    m := YoungerFlies(m, x, y, z, host);
    assert (Payload(z) + [x]) + [y] == Payload(z) + [x, y];
    m := YoungerRepeats(m, x, y, z, host);
  }

  lemma YoungerRepeats(m: Memory, x: byte, y: byte, z: byte, host: K.Host) returns (n: Memory)
    requires Standing(m, host) && Baited(m.mine, z)
    requires CallerIs(m.sys.a.node, 3, Sending0([], 20, Flights(x, y, 2, 1), [WX, WY], {}, DONE), WIDE)
    ensures Standing(n, host) && Baited(n.mine, z)
    ensures CallerIs(n.sys.a.node, 3, Sending0([], 20, Flights(x, y, 20, 2), [WX, WY], {}, DONE), WIDE)
    ensures n.sys.b == m.sys.b && n.sys.ab.written == m.sys.ab.written
  {
    hide Standing, Baited, S.Imbue, S.Sound, CallerIs, Flights, Concat;
    YoungerAgain(x, y);
    var s := Sending0([], 20, Flights(x, y, 2, 1), [WX, WY], {}, DONE);
    n := SendsByte(m, s, Sending0([], 20, Flights(x, y, 20, 2), [WX, WY], {}, DONE), 19, y, 3, 17, z, host);
  }

  lemma OlderFlies(m: Memory, x: byte, z: byte, host: K.Host) returns (n: Memory)
    requires Standing(m, host) && Baited(m.mine, z) && CallerIs(m.sys.a.node, 3, Sending0([], 18, map[], [], {}, DONE), WIDE)
    ensures Standing(n, host) && Baited(n.mine, z)
    ensures CallerIs(n.sys.a.node, 3, Sending0([], 19, FlightX(x), [WX], {}, DONE), WIDE)
    ensures n.sys.b == m.sys.b && n.sys.ab.written == m.sys.ab.written + [x]
  {
    hide Standing, Baited, S.Imbue, S.Sound, Concat;
    One([x]);
    n := Writes(m, [x], 10, [], host);
    assert [] + [WX] == [WX];
    assert n.sys.a.node.ost == Sending0([[x]], 18, map[], [WX], {}, DONE);
    OlderSent(x);
    n := SendsByte(n, n.sys.a.node.ost, Sending0([], 19, FlightX(x), [WX], {}, DONE), 18, x, 1, 9, z, host);
  }

  lemma YoungerFlies(m: Memory, x: byte, y: byte, z: byte, host: K.Host) returns (n: Memory)
    requires Standing(m, host) && Baited(m.mine, z)
    requires CallerIs(m.sys.a.node, 3, Sending0([], 19, FlightX(x), [WX], {}, DONE), WIDE)
    ensures Standing(n, host) && Baited(n.mine, z)
    ensures CallerIs(n.sys.a.node, 3, Sending0([], 20, Flights(x, y, 2, 1), [WX, WY], {}, DONE), WIDE)
    ensures n.sys.b == m.sys.b && n.sys.ab.written == m.sys.ab.written + [y]
  {
    hide Standing, Baited, S.Imbue, S.Sound, Concat;
    One([y]);
    n := Writes(m, [y], 11, [WX], host);
    assert [WX] + [WY] == [WX, WY];
    assert n.sys.a.node.ost == Sending0([[y]], 19, FlightX(x), [WX, WY], {}, DONE);
    YoungerSent(x, y);
    n := SendsByte(n, n.sys.a.node.ost, Sending0([], 20, Flights(x, y, 2, 1), [WX, WY], {}, DONE), 19, y, 1, 1, z, host);
  }

  // ---------------------------------------------------------------- what the peer makes of it

  function Foreign(x: byte, z: byte): Packet { Packet(7, [Ping(21), Move(18, [x]), Move(19, [z])]) }

  /** The peer hands both fragments to the read that waits for them. */
  lemma ForeignServed(x: byte, z: byte)
    ensures R.FillsFit(Half(z, {}))
    ensures RL.Delivered(R.Parse(Half(z, {}), Foreign(x, z).sections, WIDE)) == Payload(z) + [x, z]
  {
    hide Payload;
    var r := Half(z, {});
    var r1 := R.OnMove(r, 18, [x]);
    assert r1.data == map[18 := [x]] && r1.data.Keys == {18};
    assert MaxOf({18}) == 18;
    var r2 := R.OnMove(r1, 19, [z]);
    assert r2.data == map[18 := [x], 19 := [z]] && r2.data.Keys == {18, 19};
    assert MaxOf({18, 19}) == 19;
    ScanThree(r, Ping(21), Move(18, [x]), Move(19, [z]), WIDE);
    assert R.Scan(r, Foreign(x, z).sections, WIDE) == r2;
    hide R.Scan;
    TwoServed(r2, Payload(z), x, z);
  }

  lemma TwoServed(r: R.Receiver, d: seq<byte>, x: byte, z: byte)
    requires r.data == map[18 := [x], 19 := [z]] && r.head == 18 && r.readers == [R.Reader(20, d, 20)] && r.posted == []
    requires |d| == 18
    ensures R.FillsFit(r) && RL.Delivered(R.Transmit(r)) == d + [x, z]
  {
    hide R.Transmit, R.Step;
    var r1 := FirstServed(r, d, x, z);
    var r2 := SecondServed(r1, d, x, z);
    R.TransmitUnfolds(r);
    R.TransmitUnfolds(r1);
    R.TransmitUnfolds(r2);
    assert RL.Returned(r2.posted[..0]) == [];
  }

  lemma FirstServed(r: R.Receiver, d: seq<byte>, x: byte, z: byte) returns (t: R.Receiver)
    requires r.data == map[18 := [x], 19 := [z]] && r.head == 18 && r.readers == [R.Reader(20, d, 20)] && r.posted == []
    requires |d| == 18
    ensures R.FillsFit(r) && R.Available(r) && t == R.Step(r) && R.FillsFit(t)
    ensures t.data == map[19 := [z]] && t.head == 19 && t.readers == [R.Reader(20, d + [x], 20)] && t.posted == []
  {
    assert r.data.Keys == {18, 19};
    assert MinOf({18, 19}) == 18;
    t := R.Step(r);
    assert r.readers[0 := R.Reader(20, d + [x], 20)] == [R.Reader(20, d + [x], 20)];
  }

  lemma SecondServed(r: R.Receiver, d: seq<byte>, x: byte, z: byte) returns (t: R.Receiver)
    requires r.data == map[19 := [z]] && r.head == 19 && r.readers == [R.Reader(20, d + [x], 20)] && r.posted == []
    requires |d| == 18
    ensures R.FillsFit(r) && R.Available(r) && t == R.Step(r)
    ensures t.readers == [] && t.posted == [R.ReadPost(20, Success, d + [x, z])]
  {
    assert r.data.Keys == {19};
    assert MinOf({19}) == 19;
    assert (d + [x]) + [z] == d + [x, z];
    t := R.Step(r);
    assert r.readers[0 := R.Reader(20, d + [x, z], 20)] == [R.Reader(20, d + [x, z], 20)];
  }

  lemma ForeignFed(x: byte, z: byte)
    ensures var n := Listener(Answered(), Half(z, {}), WIDE);
            && NodeOk(n, WIDE) && C.Admits(n.conn, 7)
            && RL.Delivered(Feed(n, Foreign(x, z), 21, WIDE).ist) == Payload(z) + [x, z]
  {
    hide R.Parse, S.Parse, C.ParseAll, RL.Delivered, Payload;
    ForeignServed(x, z);
    ConnThree(Answered().(seen := At(21)), 7, Ping(21), Move(18, [x]), Move(19, [z]), 21, WIDE);
  }

  /** The packet that repeats the older flight leaves its body open, and what stands behind it is the bait. */
  lemma BaitTaken(m: Memory, x: byte, y: byte, z: byte, host: K.Host) returns (n: Memory)
    requires Standing(m, host) && Baited(m.mine, z)
    requires CallerIs(m.sys.a.node, 3, Sending0([], 20, Flights(x, y, 20, 2), [WX, WY], {}, DONE), WIDE)
    ensures ByteReached(n, host, 0, WIDE) && n.sys.b == m.sys.b && n.sys.ab.written == m.sys.ab.written
    ensures Foreign(x, z) in n.sys.a.sent && |n.mine| == |n.theirs| == WIDE.packetSize
  {
    hide ByteReached, Reached, Produce, CallerIs, Sending0, Baited, U.Sealed, SizeOfAll, StepA, Clean, NodeOk;
    var r := OpensHere(m, x, y, z, host);
    var e := Emit(21, 1, [Move(19, [z])]);
    ProduceFits(m.sys.a.node, 21, 1, WIDE);
    TwoSized(x);
    BaitRead(m.mine, z);
    assert FromBuffer(r, m.mine, e.stale);
    ByteGoesOn(m, e, host, 0, 0, WIDE);
    var w := Effects(m.sys, e, WIDE);
    assert r.sections + [Move(19, [z])] == Foreign(x, z).sections;
    n := ByteStep(m, e, host, 0, 0, WIDE);
  }

  lemma OpensHere(m: Memory, x: byte, y: byte, z: byte, host: K.Host) returns (r: Produced)
    requires Standing(m, host)
    requires CallerIs(m.sys.a.node, 3, Sending0([], 20, Flights(x, y, 20, 2), [WX, WY], {}, DONE), WIDE)
    ensures r == Produce(m.sys.a.node, 21, 1, WIDE) && r.leftOpen && r.sections == [Ping(21), Move(18, [x])]
    ensures m.sys.a.node.conn.status == C.Linked && m.sys.a.node.conn.local == 7
    ensures Clean(m.sys, Emit(21, 1, [Move(19, [z])]), WIDE) && Plain(m.sys, Emit(21, 1, [Move(19, [z])]), WIDE)
    ensures |m.mine| == WIDE.packetSize
  {
    hide ByteReached, Reached, S.Imbue, S.Sound, Sending0, Produce;
    OlderAgain(x, y);
    Composed(m.sys.a.node, 3, m.sys.a.node.ost, 21, 1, WIDE);
    r := Produce(m.sys.a.node, 21, 1, WIDE);
    assert [Ping(21)] + [Move(18, [x])] == [Ping(21), Move(18, [x])];
  }

  lemma TwoSized(x: byte)
    ensures SizeOfAll([Ping(21), Move(18, [x])]) == 25
  {
    assert [Ping(21), Move(18, [x])][1..] == [Move(18, [x])] && [Move(18, [x])][1..] == [];
    assert SizeOfAll([Move(18, [x])]) == 13 + SizeOfAll([]);
  }

  /**
   * What stale bytes can do, whatever the buffers held at first and on either byte order: without a secret, an earlier
   * payload leaves a well-formed fragment in the packet buffer; a later packet whose body is left open ends right in
   * front of it; the peer delivers it. What its reads have received is no prefix of what was written.
   */
  lemma StaleFragmentBreaksStream(mine: seq<byte>, theirs: seq<byte>, x: byte, y: byte, z: byte, host: K.Host)
    returns (m: Memory)
    requires |mine| == |theirs| == WIDE.packetSize && z != y
    ensures ByteReached(m, host, 0, WIDE)
    ensures m.sys.ba.written == Payload(z) + [x, y] && RL.Delivered(m.sys.a.node.ist) == Payload(z) + [x, z]
    ensures !(RL.Delivered(m.sys.a.node.ist) <= m.sys.ba.written)
  {
    hide ByteReached, Reached, Standing, Feed, NodeOk, RL.Delivered, Payload, Baited, CallerIs, Half;
    m := Set(mine, theirs, x, y, z, host);
    m := BaitTaken(m, x, y, z, host);
    ByteMirrored(m, host, 0, WIDE);
    m := Mirror(m);
    ForeignFed(x, z);
    var e := Deliver(Foreign(x, z), 21);
    assert Able(m, WIDE) && ByteLegal(m, e, WIDE);
    ByteGoesOn(m, e, host, 0, 0, WIDE);
    var w := Effects(m.sys, e, WIDE);
    m := ByteStep(m, e, host, 0, 0, WIDE);
    assert (Payload(z) + [x, z])[19] != (Payload(z) + [x, y])[19];
  }
}
