/**
 * The receive loop and the socket of each end on top of the channel runs: which callbacks are still to come, and what
 * they answer. `consume` keeps one socket operation outstanding until it finds the connector finished; `produce` closes
 * the socket when it finds the connector finished; closing the socket makes an outstanding operation fail, and its
 * callback runs `mistake`.
 */
module ReceiveLoop {
  import opened Containers
  import opened Protocol
  import opened Channel
  import opened ChannelRuns
  import opened ChannelLaws
  import opened ChannelTheorems
  import opened ChannelSteps
  import opened Handshake
  import C = Connecting
  import S = Sending
  import R = Receiving
  import CL = ConnectorLaws

  /** `reading`: an operation is outstanding; `stopped`: `consume` has found the connector finished. */
  datatype Loop = Loop(reading: bool, stopped: bool, isOpen: bool)

  const IDLE: Loop := Loop(false, false, true)

  datatype Looped = Looped(sys: System, mine: Loop, theirs: Loop)

  /** What may happen at one end. */
  datatype LoopEvent =
    | Call(e: Event)
    | Arrives(packet: Packet, now: nat)
    | Woken(now: nat)
    | Produces(now: nat, repeat: nat, stale: seq<Section>)
    | Fails(code: Code)
    | Closes(code: Code)

  function Mirror(l: Looped): Looped {
    Looped(Swap(l.sys), l.theirs, l.mine)
  }

  ghost function Facing(l: Looped, atA: bool): Looped {
    if atA then l else Mirror(l)
  }

  predicate IsCall(e: Event) {
    e.CallConnect? || e.CallAccept? || e.CallShutdown? || e.CallWrite? || e.CallRead?
  }

  /**
   * Packets arrive as long as the loop runs on an open socket; an operation may fail at any time, and does once the
   * socket is closed; anyone may close the channel, `on_error` included. All of them give a code that is an error.
   */
  ghost predicate Possible(l: Looped, e: LoopEvent, cfg: Config) {
    && ChannelRuns.Ready(l.sys, cfg)
    && match e
       case Call(c) => IsCall(c) && Legal(l.sys, c, cfg)
       case Arrives(p, now) => l.mine.reading && l.mine.isOpen && Legal(l.sys, Deliver(p, now), cfg)
       case Woken(_) => l.mine.reading && l.mine.isOpen
       case Produces(now, repeat, stale) => l.mine.isOpen && Legal(l.sys, Emit(now, repeat, stale), cfg)
       case Fails(code) => l.mine.reading && code != Success
       case Closes(code) => code != Success
  }

  /** `consume`: a finished connector ends the loop, and the streams are aborted as `produce` would do. */
  ghost function Consume(l: Looped, now: nat, cfg: Config): Looped {
    if ChannelRuns.Ready(l.sys, cfg) && l.sys.a.node.conn.status == C.Finished then
      Looped(StepA(l.sys, Emit(now, 0, []), cfg), l.mine.(reading := false, stopped := true), l.theirs)
    else l
  }

  ghost function Step(l: Looped, e: LoopEvent, cfg: Config): Looped
    requires ChannelRuns.Ready(l.sys, cfg)
  {
    match e
    case Call(c) =>
      var starts := (c.CallConnect? || c.CallAccept?) && l.sys.a.node.conn.status == C.Initial;
      l.(sys := StepA(l.sys, c, cfg), mine := if starts then l.mine.(reading := true) else l.mine)
    case Arrives(p, now) => Consume(l.(sys := StepA(l.sys, Deliver(p, now), cfg)), now, cfg)
    case Woken(now) => Consume(l, now, cfg)
    case Produces(now, repeat, stale) =>
      l.(sys := StepA(l.sys, Emit(now, repeat, stale), cfg),
         mine := if l.sys.a.node.conn.status == C.Finished then l.mine.(isOpen := false) else l.mine)
    case Fails(code) =>
      l.(sys := StepA(l.sys, Close(code), cfg), mine := l.mine.(reading := false, isOpen := false))
    case Closes(code) =>
      l.(sys := StepA(l.sys, Close(code), cfg), mine := l.mine.(isOpen := false))
  }

  datatype LoopTurn = LoopTurn(atA: bool, event: LoopEvent)

  ghost function Take(l: Looped, t: LoopTurn, cfg: Config): Looped {
    var v := Facing(l, t.atA);
    if ChannelRuns.Ready(v.sys, cfg) then Facing(Step(v, t.event, cfg), t.atA) else l
  }

  ghost predicate IsRun(l: Looped, ts: seq<LoopTurn>, cfg: Config)
    decreases |ts|
  {
    ts != [] ==> Possible(Facing(l, ts[0].atA), ts[0].event, cfg) && IsRun(Take(l, ts[0], cfg), ts[1..], cfg)
  }

  ghost function Exec(l: Looped, ts: seq<LoopTurn>, cfg: Config): Looped
    decreases |ts|
  {
    if ts == [] then l else Exec(Take(l, ts[0], cfg), ts[1..], cfg)
  }

  function Begin(cfg: Config): Looped {
    Looped(Start(cfg), IDLE, IDLE)
  }

  ghost predicate LoopReached(l: Looped, cfg: Config) {
    exists ts, atA :: IsRun(Begin(cfg), ts, cfg) && l == Facing(Exec(Begin(cfg), ts, cfg), atA)
  }

  // ---------------------------------------------------------------- what every run keeps

  /** The loop of an end that has a pin runs, or a finished connector has stopped it, but not both. */
  ghost predicate LoopOk(n: Node, loop: Loop) {
    && !(loop.reading && loop.stopped)
    && (loop.stopped ==> n.conn.status == C.Finished)
    && (n.conn.local != 0 ==> loop.reading || loop.stopped)
  }

  ghost predicate Inv(l: Looped, cfg: Config) {
    Reached(l.sys, cfg) && LoopOk(l.sys.a.node, l.mine) && LoopOk(l.sys.b.node, l.theirs)
  }

  lemma MirrorInv(l: Looped, cfg: Config)
    requires Inv(l, cfg)
    ensures Inv(Mirror(l), cfg)
  {
    hide Reached;
    SwapReached(l.sys, cfg);
  }

  /** What a step does to the local pin and the phase. */
  lemma PinMoves(s: System, e: Event, cfg: Config)
    requires Reached(s, cfg) && ChannelRuns.Ready(s, cfg) && Legal(s, e, cfg)
    ensures Reached(StepA(s, e, cfg), cfg) && StepA(s, e, cfg).b == s.b
    ensures var n := s.a.node; var m := StepA(s, e, cfg).a.node;
            && n.conn.status.Rank() <= m.conn.status.Rank()
            && (e.Close? ==> m.conn.local == 0)
            && (m.conn.local != 0 ==> m.conn.local == n.conn.local || ((e.CallConnect? || e.CallAccept?) && n.conn.status == C.Initial))
  {
    hide Reached, SysInv, StepA, Legal, ChannelRuns.Ready;
    StepReached(s, e, cfg);
    ReachedInv(s, cfg);
    StepGrows(s, e, cfg);
    FarEndStays(s, e, cfg);
    LocalMoves(s, e, cfg);
  }

  lemma LocalMoves(s: System, e: Event, cfg: Config)
    requires ChannelRuns.Ready(s, cfg)
    ensures var n := s.a.node; var m := StepA(s, e, cfg).a.node;
            && (e.Close? ==> m.conn.local == 0)
            && (m.conn.local != 0 ==> m.conn.local == n.conn.local || ((e.CallConnect? || e.CallAccept?) && n.conn.status == C.Initial))
  {
    hide S.Sound, R.FillsFit, S.Parse, R.Parse, S.Imbue, R.Imbue, TrackAll, TrackJobs, C.ParseAll, C.RunJobs;
    match e
    case Deliver(p, now) => HeardLocal(s.a.node.conn.(seen := At(now)), p.pin, p.sections, now, cfg);
    case Emit(now, repeat, _) => SentLocal(s.a.node.conn, BodyRoom(cfg), now, repeat);
    case _ =>
  }

  lemma {:induction false} HeardLocal(c: C.Connector, pin: nat, secs: seq<Section>, now: nat, cfg: Config)
    ensures C.ParseAll(c, pin, secs, now, cfg).local == c.local
    decreases |secs|
  {
    if secs != [] {
      HeardLocal(C.ParseSection(c, pin, secs[0], now, cfg), pin, secs[1..], now, cfg);
    }
  }

  lemma {:induction false} SentLocal(c: C.Connector, room: nat, now: nat, repeat: nat)
    requires C.JobsOk(c)
    ensures C.RunJobs(c, room, now, repeat).connector.local == c.local
    decreases |C.Ready(c, now)|
  {
    if !(room < SECTION_HEADER || C.Ready(c, now) == {}) {
      var k := MinOf(C.Ready(c, now));
      var x := C.JobSection(c, k, now);
      C.ReadyShrinks(c, k, now, repeat);
      CL.JobsShrink(c, k, now, repeat);
      SentLocal(C.AfterJob(c, k, now, repeat), if SizeOf(x) <= room then room - SizeOf(x) else 0, now, repeat);
    }
  }

  lemma ConsumeKeeps(l: Looped, now: nat, cfg: Config)
    requires Inv(l, cfg) && l.mine.reading
    ensures Inv(Consume(l, now, cfg), cfg) && Consume(l, now, cfg).sys.b == l.sys.b
  {
    hide Reached, SysInv, StepA, ChannelRuns.Ready;
    if ChannelRuns.Ready(l.sys, cfg) && l.sys.a.node.conn.status == C.Finished {
      LeavingEmits(l.sys, now, cfg);
      PinMoves(l.sys, Emit(now, 0, []), cfg);
    }
  }

  lemma LeavingEmits(s: System, now: nat, cfg: Config)
    requires ChannelRuns.Ready(s, cfg) && s.a.node.conn.status == C.Finished
    ensures Legal(s, Emit(now, 0, []), cfg) && StepA(s, Emit(now, 0, []), cfg).a.node.conn == s.a.node.conn
  {
    hide S.Sound, R.FillsFit, Harmless;
    FinishedProduce(s.a.node, now, 0, cfg);
  }

  lemma StepKeeps(l: Looped, e: LoopEvent, cfg: Config)
    requires Inv(l, cfg) && Possible(l, e, cfg)
    ensures Inv(Step(l, e, cfg), cfg) && Step(l, e, cfg).sys.b == l.sys.b && Step(l, e, cfg).theirs == l.theirs
  {
    hide Reached, StepA, Legal, ChannelRuns.Ready, Consume;
    match e
    case Call(c) => PinMoves(l.sys, c, cfg);
    case Arrives(p, now) =>
      PinMoves(l.sys, Deliver(p, now), cfg);
      ConsumeKeeps(l.(sys := StepA(l.sys, Deliver(p, now), cfg)), now, cfg);
      ConsumeFrame(l.(sys := StepA(l.sys, Deliver(p, now), cfg)), now, cfg);
    case Woken(now) =>
      ConsumeKeeps(l, now, cfg);
      ConsumeFrame(l, now, cfg);
    case Produces(now, repeat, stale) => PinMoves(l.sys, Emit(now, repeat, stale), cfg);
    case Fails(code) =>
      CloseLegal(l.sys, code, cfg);
      PinMoves(l.sys, Close(code), cfg);
    case Closes(code) =>
      CloseLegal(l.sys, code, cfg);
      PinMoves(l.sys, Close(code), cfg);
  }

  lemma ConsumeFrame(l: Looped, now: nat, cfg: Config)
    ensures Consume(l, now, cfg).theirs == l.theirs
  {
  }

  lemma CloseLegal(s: System, code: Code, cfg: Config)
    requires ChannelRuns.Ready(s, cfg) && code != Success
    ensures Legal(s, Close(code), cfg)
  {
  }

  lemma {:induction false} RunInv(l: Looped, ts: seq<LoopTurn>, cfg: Config)
    requires Inv(l, cfg) && IsRun(l, ts, cfg)
    ensures Inv(Exec(l, ts, cfg), cfg)
    decreases |ts|
  {
    hide Inv, Step, Possible;
    if ts != [] {
      var v := Facing(l, ts[0].atA);
      if !ts[0].atA {
        MirrorInv(l, cfg);
      }
      PossibleReady(v, ts[0].event, cfg);
      StepKeeps(v, ts[0].event, cfg);
      if !ts[0].atA {
        MirrorInv(Step(v, ts[0].event, cfg), cfg);
      }
      RunInv(Take(l, ts[0], cfg), ts[1..], cfg);
    }
  }

  lemma PossibleReady(l: Looped, e: LoopEvent, cfg: Config)
    requires Possible(l, e, cfg)
    ensures ChannelRuns.Ready(l.sys, cfg)
  {
  }

  lemma LoopInv(l: Looped, cfg: Config)
    requires LoopReached(l, cfg)
    ensures Inv(l, cfg)
  {
    hide IsRun, Exec, Inv, Begin;
    var ts, atA :| IsRun(Begin(cfg), ts, cfg) && l == Facing(Exec(Begin(cfg), ts, cfg), atA);
    BeginInv(cfg);
    RunInv(Begin(cfg), ts, cfg);
    MirrorInv(Exec(Begin(cfg), ts, cfg), cfg);
  }

  lemma BeginInv(cfg: Config)
    ensures Inv(Begin(cfg), cfg)
  {
    hide Reached;
    StartReached(cfg);
  }

  // ---------------------------------------------------------------- a connect that nobody will answer

  function Alarms(n: Node): seq<Code> {
    n.conn.alarms + n.ist.alarms + n.ost.alarms
  }

  /**
   * A callback is still to come that runs `mistake`: that of the receive loop, or an `on_error` posted before (a
   * `mistake` that has run has cleared the local pin).
   */
  predicate Outstanding(l: Looped) {
    l.mine.reading || (l.sys.a.node.conn.local != 0 && Alarms(l.sys.a.node) != [])
  }

  /** The connect handler is still kept although the end is finished, its socket is closed, and nothing is outstanding. */
  predicate Stranded(l: Looped) {
    && l.sys.a.node.conn.status == C.Finished && !l.mine.isOpen
    && l.sys.a.node.conn.onConnect != C.NoHandler && !Outstanding(l)
  }

  /**
   * A `connect` is stranded if and only if the end has sent a tear echo without ever having been linked, its receive
   * loop found the connector finished before the socket was closed, no `on_error` was posted, and it has not been
   * closed since.
   */
  lemma ConnectStrandedIff(l: Looped, cfg: Config)
    requires LoopReached(l, cfg) && l.sys.a.node.conn.status == C.Finished && !l.mine.isOpen
    ensures Stranded(l) <==>
              && TearEcho in l.sys.ab.forth && !l.sys.a.trail.linked
              && l.mine.stopped
              && Alarms(l.sys.a.node) == []
              && l.sys.a.node.conn.local != 0
  {
    hide Reached, LoopReached;
    LoopInv(l, cfg);
    ConnectUnansweredIff(l.sys, cfg);
  }

  /** Once stranded, a `connect` stays so through everything that can still happen at either end, but for a close. */
  lemma StrandedStays(l: Looped, t: LoopTurn, cfg: Config)
    requires LoopReached(l, cfg) && Stranded(l) && Possible(Facing(l, t.atA), t.event, cfg)
    requires t.atA ==> !t.event.Closes?
    ensures Stranded(Take(l, t, cfg))
  {
    hide LoopReached, Reached, StepA, ChannelRuns.Ready, Legal, Step;
    LoopInv(l, cfg);
    if t.atA {
      LateCall(l, t.event, cfg);
    } else {
      MirrorInv(l, cfg);
      StepKeeps(Mirror(l), t.event, cfg);
    }
  }

  lemma LateCall(l: Looped, e: LoopEvent, cfg: Config)
    requires Stranded(l) && Possible(l, e, cfg) && !e.Closes?
    ensures Stranded(Step(l, e, cfg))
  {
    hide S.Sound, R.FillsFit, C.JobsOk, Track;
  }

  /** As long as the loop's operation is outstanding, its failure answers the `connect`, with the code of the failure. */
  lemma FailureAnswers(l: Looped, code: Code, cfg: Config)
    requires LoopReached(l, cfg) && l.mine.reading && code != Success
    ensures Possible(l, Fails(code), cfg)
    ensures var c := l.sys.a.node.conn; var d := Step(l, Fails(code), cfg).sys.a.node.conn;
            && d.onConnect == C.NoHandler
            && (c.onConnect != C.NoHandler ==> C.Post(c.onConnect, code) in d.posted)
  {
    hide LoopReached, Reached;
    LoopInv(l, cfg);
    BothReady(l.sys, cfg);
    hide R.Error, S.Error, R.FillsFit, S.Sound;
  }

  // ---------------------------------------------------------------- one event at a time

  lemma {:induction false} RunSnoc(l: Looped, ts: seq<LoopTurn>, t: LoopTurn, cfg: Config)
    requires IsRun(l, ts, cfg) && Possible(Facing(Exec(l, ts, cfg), t.atA), t.event, cfg)
    ensures IsRun(l, ts + [t], cfg) && Exec(l, ts + [t], cfg) == Take(Exec(l, ts, cfg), t, cfg)
    decreases |ts|
  {
    hide Take, Possible;
    if ts == [] {
      assert [] + [t] == [t] && [t][1..] == [];
      assert IsRun(Take(l, t, cfg), [], cfg) && Exec(Take(l, t, cfg), [], cfg) == Take(l, t, cfg);
    } else {
      assert (ts + [t])[1..] == ts[1..] + [t];
      RunSnoc(Take(l, ts[0], cfg), ts[1..], t, cfg);
    }
  }

  ghost predicate Standing(l: Looped, cfg: Config) {
    LoopReached(l, cfg) && Reached(l.sys, cfg) && ChannelRuns.Ready(l.sys, cfg) && ChannelRuns.Ready(Swap(l.sys), cfg)
  }

  lemma Turned(l: Looped, cfg: Config)
    requires Standing(l, cfg)
    ensures Standing(Mirror(l), cfg)
  {
    hide IsRun, Exec, Begin, Reached, ChannelRuns.Ready;
    var ts, atA :| IsRun(Begin(cfg), ts, cfg) && l == Facing(Exec(Begin(cfg), ts, cfg), atA);
    assert Mirror(l) == Facing(Exec(Begin(cfg), ts, cfg), !atA);
    SwapReached(l.sys, cfg);
  }

  lemma GoesOn(l: Looped, e: LoopEvent, cfg: Config)
    requires Standing(l, cfg) && Possible(l, e, cfg)
    ensures Standing(Step(l, e, cfg), cfg)
  {
    hide IsRun, Exec, Begin, Step, Possible, Reached, ChannelRuns.Ready;
    var ts, atA :| IsRun(Begin(cfg), ts, cfg) && l == Facing(Exec(Begin(cfg), ts, cfg), atA);
    RunSnoc(Begin(cfg), ts, LoopTurn(atA, e), cfg);
    var more := ts + [LoopTurn(atA, e)];
    assert Step(l, e, cfg) == Facing(Exec(Begin(cfg), more, cfg), atA);
    LoopInv(Step(l, e, cfg), cfg);
    BothReady(Step(l, e, cfg).sys, cfg);
  }

  lemma BeginStands(cfg: Config)
    ensures Standing(Begin(cfg), cfg)
  {
    hide Reached, ChannelRuns.Ready;
    assert IsRun(Begin(cfg), [], cfg) && Begin(cfg) == Facing(Exec(Begin(cfg), [], cfg), true);
    StartReached(cfg);
    BothReady(Start(cfg), cfg);
  }

  lemma Calls(l: Looped, e: Event, cfg: Config) returns (k: Looped)
    requires Standing(l, cfg) && Legal(l.sys, e, cfg) && (e.CallConnect? || e.CallAccept? || e.CallShutdown?)
    ensures Standing(k, cfg) && k.theirs == l.theirs && k.sys.b == l.sys.b && k.sys.a.sent == l.sys.a.sent
    ensures k.sys.a.node == NodeAfter(l.sys.a.node, e, cfg) && k.sys.a.trail.role == l.sys.a.trail.role
    ensures k.mine == if !e.CallShutdown? && l.sys.a.node.conn.status == C.Initial then l.mine.(reading := true) else l.mine
  {
    hide LoopReached, Reached, Legal, StepA, NodeAfter;
    GoesOn(l, Call(e), cfg);
    var w := Called(l.sys, e, cfg);
    k := Step(l, Call(e), cfg);
  }

  lemma Sends(l: Looped, r: Produced, cfg: Config) returns (k: Looped)
    requires Standing(l, cfg) && l.mine.isOpen
    requires l.sys.a.node.conn.status != C.Initial && l.sys.a.node.conn.status != C.Finished
    requires r == Produce(l.sys.a.node, 1, 1, cfg) && !r.leftOpen && r.sections != []
    ensures Standing(k, cfg) && k.mine == l.mine && k.theirs == l.theirs && k.sys.b == l.sys.b
    ensures k.sys.a.node == r.node && k.sys.a.trail.role == l.sys.a.trail.role
    ensures Packet(l.sys.a.node.conn.local, r.sections) in k.sys.a.sent
  {
    hide LoopReached, Reached, StepA, Produce, Harmless;
    GoesOn(l, Produces(1, 1, []), cfg);
    var w := Emitted(l.sys, 1, 1, r, cfg);
    k := Step(l, Produces(1, 1, []), cfg);
  }

  lemma Hears(l: Looped, p: Packet, cfg: Config) returns (k: Looped)
    requires Standing(l, cfg) && l.mine.isOpen && l.mine.reading && p in l.sys.b.sent && C.Admits(l.sys.a.node.conn, p.pin)
    ensures Standing(k, cfg) && k.theirs == l.theirs && k.sys.b == l.sys.b && k.sys.a.trail.role == l.sys.a.trail.role
    ensures NodeOk(l.sys.a.node, cfg)
    ensures var m := Feed(l.sys.a.node, p, 1, cfg);
            if m.conn.status == C.Finished then k.mine == Loop(false, true, true) && k.sys.a.node == AbortStreams(m, ConnectionAborted)
            else k.mine == l.mine && k.sys.a.node == m
  {
    hide LoopReached, Reached, StepA, Feed, NodeOk;
    GoesOn(l, Arrives(p, 1), cfg);
    var w := Heard(l.sys, p, 1, cfg);
    k := Step(l, Arrives(p, 1), cfg);
    if w.a.node.conn.status == C.Finished {
      LeavingEmits(w, 1, cfg);
      StepEnds(w, cfg);
    }
  }

  lemma StepEnds(w: System, cfg: Config)
    requires ChannelRuns.Ready(w, cfg) && w.a.node.conn.status == C.Finished
    ensures var s := StepA(w, Emit(1, 0, []), cfg);
            s.b == w.b && s.a.trail == w.a.trail && s.a.sent == w.a.sent && s.a.node == AbortStreams(w.a.node, ConnectionAborted)
  {
    hide S.Sound, R.FillsFit;
  }

  // ---------------------------------------------------------------- the race

  function Leaving1(cfg: Config): C.Connector {
    Answered().(status := C.Shutting, onShutdown := C.Handler(3), dead := At(1 + cfg.shutdownTimeout), jobs := map[C.TEAR := 0])
  }

  const GOODBYE: Packet := Packet(9, [Tear])

  lemma GoodbyeProduced(n: Node, cfg: Config)
    requires n.conn == Leaving1(cfg) && NodeOk(n, cfg) && cfg.packetSize >= 56
    ensures Produce(n, 1, 1, cfg) == Produced(n.(conn := Leaving1(cfg).(jobs := map[C.TEAR := 2])), [Tear], false)
  {
    assert C.Ready(n.conn, 1) == {C.TEAR};
    OneJob(n.conn, C.TEAR, BodyRoom(cfg), 1, 1, cfg);
    hide C.Imbue;
  }

  /** A caller that has heard a tear but no link echo. */
  function Torn(cfg: Config): C.Connector {
    Calling(cfg).(seen := At(1), jobs := map[C.LINK := 2, C.TEAR_ECHO := 0])
  }

  lemma GoodbyeHeard(n: Node, cfg: Config)
    requires n.conn == Calling(cfg) && n.ist.readers == [] && NodeOk(n, cfg)
    ensures Feed(n, GOODBYE, 1, cfg) == n.(conn := Torn(cfg))
  {
    ScanNothing(n.ist, [Tear], cfg);
    ChannelSteps.One(Tear);
    hide R.Scan, R.Transmit, R.Parse;
    assert S.Parse(n.ost, [Tear]) == S.Parse(n.ost, []);
    var c := n.conn.(seen := At(1));
    assert C.ParseAll(c, 9, [Tear], 1, cfg) == C.ParseAll(C.OnTear(c, 1, cfg), 9, [], 1, cfg);
    assert Emplace(map[C.LINK := 2], C.TEAR_ECHO, 0) == map[C.LINK := 2, C.TEAR_ECHO := 0];
  }

  /** It sends its tear echo and is finished. */
  function Gone(cfg: Config): C.Connector {
    Torn(cfg).(status := C.Finished, jobs := map[C.LINK := 2])
  }

  lemma TearEchoProduced(n: Node, cfg: Config)
    requires n.conn == Torn(cfg) && NodeOk(n, cfg) && cfg.packetSize >= 56
    ensures var r := Produce(n, 1, 1, cfg);
            r.node == n.(conn := Gone(cfg)) && r.sections == [TearEcho] && !r.leftOpen
  {
    assert C.Ready(n.conn, 1) == {C.TEAR_ECHO};
    OneJob(n.conn, C.TEAR_ECHO, BodyRoom(cfg), 1, 1, cfg);
    assert n.conn.jobs - {C.TEAR_ECHO} == map[C.LINK := 2];
    assert [TearEcho] + [] == [TearEcho];
    hide C.Imbue;
  }

  /** The tear is repeated and heard again: the connector stays finished. */
  lemma GoodbyeAgain(n: Node, cfg: Config)
    requires n.conn == Gone(cfg) && NodeOk(n, cfg)
    ensures var m := Feed(n, GOODBYE, 1, cfg);
            && m == n.(conn := m.conn)
            && m.conn.status == C.Finished && m.conn.onConnect == C.Handler(1) && m.conn.posted == [] && m.conn.alarms == []
  {
    hide S.Sound, R.FillsFit;
    ChannelSteps.One(Tear);
    var c := n.conn.(seen := At(1));
    assert C.ParseAll(c, 9, [Tear], 1, cfg) == C.ParseAll(C.OnTear(c, 1, cfg), 9, [], 1, cfg);
  }

  /** Both ends have called, and the listener has answered; the answer is lost. */
  lemma AnswerLost(cfg: Config) returns (l: Looped)
    requires cfg.packetSize >= 56
    ensures Standing(l, cfg) && l.mine == l.theirs == Loop(true, false, true) && l.sys.a.trail.role == Caller
    ensures l.sys.a.node == InitNode(cfg).(conn := Calling(cfg), ist := Announced(cfg))
    ensures l.sys.b.node == InitNode(cfg).(conn := Answered(), ost := Credited(cfg), ist := Announced(cfg))
  {
    l := BothCalled(cfg);
    hide Standing, Produce, Feed, NodeOk, Announced, Credited;
    HelloProduced(cfg);
    Phases(cfg);
    l := Sends(l, Produce(l.sys.a.node, 1, 1, cfg), cfg);
    Turned(l, cfg);
    HelloHeard(cfg);
    l := Hears(Mirror(l), Hello(cfg), cfg);
    WelcomeProduced(cfg);
    l := Sends(l, Produce(l.sys.a.node, 1, 1, cfg), cfg);
    Turned(l, cfg);
    l := Mirror(l);
  }

  lemma Phases(cfg: Config)
    ensures Calling(cfg).status == C.Connecting && Calling(cfg).local == 7 && C.Admits(Calling(cfg), 9)
    ensures Listening(cfg).status == C.Accepting && Listening(cfg).local == 9 && C.Admits(Listening(cfg), 7)
    ensures Torn(cfg).status == C.Connecting && Torn(cfg).local == 7 && C.Admits(Gone(cfg), 9)
    ensures Leaving1(cfg).status == C.Shutting && Leaving1(cfg).local == 9
  {
  }

  lemma BothCalled(cfg: Config) returns (l: Looped)
    ensures Standing(l, cfg) && l.mine == l.theirs == Loop(true, false, true) && l.sys.a.trail.role == Caller
    ensures l.sys.a.node == InitNode(cfg).(conn := Calling(cfg).(jobs := map[C.LINK := 0]))
    ensures l.sys.b.node == InitNode(cfg).(conn := Listening(cfg))
  {
    BeginStands(cfg);
    AskedNodes(cfg);
    hide Standing, Channel.Connect, Channel.Accept, InitNode;
    l := Begin(cfg);
    FirstCall(l, CallConnect(1, 7, 1), cfg);
    l := Calls(l, CallConnect(1, 7, 1), cfg);
    Turned(l, cfg);
    l := Mirror(l);
    FirstCall(l, CallAccept(2, 9, 1), cfg);
    l := Calls(l, CallAccept(2, 9, 1), cfg);
    Turned(l, cfg);
    l := Mirror(l);
    hide Legal, ChannelRuns.Ready;
  }

  lemma FirstCall(l: Looped, e: Event, cfg: Config)
    requires Standing(l, cfg)
    requires (e == CallConnect(1, 7, 1) && l.sys.a.trail.role == Caller) || (e == CallAccept(2, 9, 1) && l.sys.a.trail.role == Listener)
    ensures ChannelRuns.Ready(l.sys, cfg) && Legal(l.sys, e, cfg)
  {
    hide LoopReached, Reached, ChannelRuns.Ready;
  }

  /** The listener shuts down, its tear arrives, and the caller answers it: it is finished, and its socket still open. */
  lemma CallerFinished(cfg: Config) returns (l: Looped)
    requires cfg.packetSize >= 56
    ensures Standing(l, cfg) && l.mine == Loop(true, false, true) && l.sys.a.trail.role == Caller
    ensures l.sys.a.node == InitNode(cfg).(conn := Gone(cfg), ist := Announced(cfg))
    ensures GOODBYE in l.sys.b.sent
  {
    l := AnswerLost(cfg);
    hide Standing, Produce, Feed, NodeOk, Channel.Shutdown;
    Phases(cfg);
    Turned(l, cfg);
    l := Mirror(l);
    ShutdownCalled(l, cfg);
    l := Calls(l, CallShutdown(3, 1), cfg);
    Steady(l, cfg);
    GoodbyeProduced(l.sys.a.node, cfg);
    l := Sends(l, Produce(l.sys.a.node, 1, 1, cfg), cfg);
    Turned(l, cfg);
    l := Mirror(l);
    Steady(l, cfg);
    GoodbyeHeard(l.sys.a.node, cfg);
    l := Hears(l, GOODBYE, cfg);
    Steady(l, cfg);
    TearEchoProduced(l.sys.a.node, cfg);
    l := Sends(l, Produce(l.sys.a.node, 1, 1, cfg), cfg);
  }

  lemma Steady(l: Looped, cfg: Config)
    requires Standing(l, cfg)
    ensures NodeOk(l.sys.a.node, cfg)
  {
    hide LoopReached, Reached, NodeOk;
  }

  lemma ShutdownCalled(l: Looped, cfg: Config)
    requires Standing(l, cfg)
    ensures ChannelRuns.Ready(l.sys, cfg) && Legal(l.sys, CallShutdown(3, 1), cfg)
    ensures l.sys.a.node.conn == Answered() ==>
              Channel.Shutdown(l.sys.a.node, 3, 1, cfg) == l.sys.a.node.(conn := Leaving1(cfg))
  {
    hide LoopReached, Reached, NodeOk;
  }

  /** `produce` finds the connector finished and closes the socket. */
  lemma SocketCloses(l: Looped, cfg: Config) returns (k: Looped)
    requires Standing(l, cfg) && l.mine.isOpen && l.sys.a.node.conn.status == C.Finished
    ensures Standing(k, cfg) && k.mine == l.mine.(isOpen := false) && k.sys.a.trail == l.sys.a.trail
    ensures k.sys.a.node == AbortStreams(l.sys.a.node, ConnectionAborted)
  {
    hide LoopReached, Reached, StepA, ChannelRuns.Ready;
    LeavingEmits(l.sys, 1, cfg);
    StepEnds(l.sys, cfg);
    GoesOn(l, Produces(1, 0, []), cfg);
    k := Step(l, Produces(1, 0, []), cfg);
  }

  /**
   * A run between two ends that both follow the program, in any configuration: the listener accepts, its link echo is
   * lost, it shuts down at once, and its tear arrives twice. The caller finishes on the first one; the second one comes
   * before `produce` closes the socket, and `consume` stops. Nothing that is still to come answers the `connect`.
   */
  lemma LostLinkEchoStrandsConnect(cfg: Config) returns (l: Looped)
    requires cfg.packetSize >= 56
    ensures LoopReached(l, cfg) && l.sys.a.trail.role == Caller
    ensures Stranded(l) && l.sys.a.node.conn.onConnect == C.Handler(1) && l.sys.a.node.conn.posted == []
  {
    hide LoopReached, Reached, Produce, Feed, NodeOk, AbortStreams;
    l := CallerFinished(cfg);
    Phases(cfg);
    Steady(l, cfg);
    GoodbyeAgain(l.sys.a.node, cfg);
    var m := Feed(l.sys.a.node, GOODBYE, 1, cfg);
    assert Alarms(m) == [];
    l := Hears(l, GOODBYE, cfg);
    QuietAbort(m);
    QuietAbort(l.sys.a.node);
    l := SocketCloses(l, cfg);
  }

  lemma QuietAbort(n: Node)
    ensures Alarms(AbortStreams(n, ConnectionAborted)) == Alarms(n)
    ensures AbortStreams(n, ConnectionAborted).conn == n.conn
  {
  }

  /**
   * The same run without the second tear: the socket is closed while the loop waits, its operation fails, and the
   * `connect` is answered.
   */
  lemma LostLinkEchoIsAnswered(code: Code, cfg: Config) returns (l: Looped)
    requires cfg.packetSize >= 56 && code != Success
    ensures LoopReached(l, cfg) && l.sys.a.node.conn.status == C.Finished && !l.mine.isOpen && l.mine.reading
    ensures l.sys.a.node.conn.onConnect == C.Handler(1) && Possible(l, Fails(code), cfg)
    ensures C.Post(C.Handler(1), code) in Step(l, Fails(code), cfg).sys.a.node.conn.posted
  {
    hide LoopReached, Reached, Possible, Step;
    l := CallerFinished(cfg);
    l := SocketCloses(l, cfg);
    FailureAnswers(l, code, cfg);
  }
}
