/** What the callers of a channel are told: every handler's code, and every read's outcome, in every run. */
module PostLaws {
  import opened Containers
  import opened Protocol
  import opened Channel
  import opened ChannelRuns
  import opened ChannelLaws
  import opened ChannelTheorems
  import opened Handshake
  import C = Connecting
  import S = Sending
  import R = Receiving
  import CL = ConnectorLaws
  import RL = ReceiverLaws
  import SL = SenderLaws
  import L = StreamLink

  /**
   * What the callers at one end have asked for: handlers given to `connect` or `accept` in the initial phase, handlers
   * given to `shutdown` while linked or tearing, those given to a `shutdown` that was answered at once, with the code due,
   * the reads, the handlers of writes, and the codes the end was closed with.
   */
  datatype Log = Log(joins: set<nat>, leaves: set<nat>, turned: set<(nat, Code)>, asked: seq<RL.Ask>, writes: set<nat>,
                     codes: set<Code>)

  const BLANK: Log := Log({}, {}, {}, [], {}, {})

  /** What a `shutdown` is told at once in a phase in which it starts nothing. */
  function AtOnce(s: C.Status): Code {
    if s == C.Finished then Success else if s == C.Shutting then InProgress else NotConnected
  }

  /** The log after an event at an end in state n. */
  function Noted(l: Log, n: Node, e: Event): Log {
    match e
    case CallConnect(id, _, _) => if n.conn.status == C.Initial then l.(joins := l.joins + {id}) else l
    case CallAccept(id, _, _) => if n.conn.status == C.Initial then l.(joins := l.joins + {id}) else l
    case CallShutdown(id, _) =>
      if n.conn.status == C.Linked || n.conn.status == C.Tearing then l.(leaves := l.leaves + {id})
      else l.(turned := l.turned + {(id, AtOnce(n.conn.status))})
    case CallRead(size, id) => if n.conn.status == C.Linked then l.(asked := l.asked + [RL.Ask(id, size)]) else l
    case CallWrite(_, id) => l.(writes := l.writes + {id})
    case Close(code) => l.(codes := l.codes + {code})
    case _ => l
  }

  /** The log of end `a` or `b` once the turns have been taken from state s. */
  ghost function Logged(s: System, turns: seq<Turn>, atA: bool, l: Log, cfg: Config): Log
    decreases |turns|
  {
    if turns == [] then l
    else
      Logged(Take(s, turns[0], cfg), turns[1..], atA,
             if turns[0].atA == atA then Noted(l, View(s, atA).a.node, turns[0].event) else l, cfg)
  }

  // ---------------------------------------------------------------- what a handler may be told

  /** Success only if it is due; otherwise a code the end was closed with. */
  ghost predicate Fair(code: Code, due: bool, l: Log) {
    if code == Success then due else code in l.codes
  }

  ghost predicate PostOk(p: C.Post, linked: bool, gone: bool, l: Log) {
    && p.handler != C.NoHandler
    && (|| (p.handler.id, p.code) in l.turned
        || (p.handler.id in l.joins && Fair(p.code, linked, l))
        || (p.handler.id in l.leaves && Fair(p.code, gone, l)))
  }

  /** `linked`: the end has been linked; `gone`: its peer is finished or has begun a shutdown. */
  ghost predicate Told(c: C.Connector, linked: bool, gone: bool, l: Log) {
    && (c.onConnect != C.NoHandler ==> c.onConnect.id in l.joins)
    && (c.onShutdown != C.NoHandler ==> c.onShutdown.id in l.leaves)
    && forall i :: 0 <= i < |c.posted| ==> PostOk(c.posted[i], linked, gone, l)
  }

  predicate Gone(d: C.Connector, u: Trail) {
    d.status == C.Finished || u.begun
  }

  ghost predicate More(l: Log, m: Log) {
    l.joins <= m.joins && l.leaves <= m.leaves && l.turned <= m.turned && l.codes <= m.codes
  }

  lemma ToldGrows(c: C.Connector, linked: bool, gone: bool, l: Log, linked': bool, gone': bool, m: Log)
    requires Told(c, linked, gone, l) && (linked ==> linked') && (gone ==> gone') && More(l, m)
    ensures Told(c, linked', gone', m)
  {
    assert forall i :: 0 <= i < |c.posted| && PostOk(c.posted[i], linked, gone, l) ==> PostOk(c.posted[i], linked', gone', m);
  }

  lemma SameSlots(c: C.Connector, d: C.Connector, linked: bool, gone: bool, l: Log)
    requires Told(c, linked, gone, l) && d.posted == c.posted && d.onConnect == c.onConnect && d.onShutdown == c.onShutdown
    ensures Told(d, linked, gone, l)
  {
  }

  lemma ConnectAnswered(c: C.Connector, code: Code, linked: bool, gone: bool, l: Log)
    requires Told(c, linked, gone, l) && c.onConnect != C.NoHandler && Fair(code, linked, l)
    ensures Told(C.PostConnect(c, code), linked, gone, l)
  {
  }

  lemma ShutdownAnswered(c: C.Connector, code: Code, linked: bool, gone: bool, l: Log)
    requires Told(c, linked, gone, l) && c.onShutdown != C.NoHandler && Fair(code, gone, l)
    ensures Told(C.PostShutdown(c, code), linked, gone, l)
  {
  }

  lemma Refused(c: C.Connector, id: nat, code: Code, linked: bool, gone: bool, l: Log)
    requires Told(c, linked, gone, l) && (id, code) in l.turned
    ensures Told(C.Refuse(c, id, code), linked, gone, l)
  {
  }

  // ---------------------------------------------------------------- the connector's steps

  lemma HeardTold(c: C.Connector, t: Trail, d: C.Connector, u: Trail, mine: set<Section>, theirs: set<Section>,
                  x: Section, now: nat, l: Log, cfg: Config)
    requires Pact(c, t, d, u, mine, theirs) && x in theirs
    requires Told(c, t.linked, Gone(d, u), l)
    ensures var e := C.ParseSection(c, u.pin, x, now, cfg); Told(e, TrackSection(t, c, e).linked, Gone(d, u), l)
  {
    hide Told;
    var e := C.ParseSection(c, u.pin, x, now, cfg);
    var linked := TrackSection(t, c, e).linked;
    ToldGrows(c, t.linked, Gone(d, u), l, linked, Gone(d, u), l);
    if x.LinkEcho? && c.status == C.Connecting {
      var c1 := c.(status := C.Linked, dead := Never, remote := u.pin, jobs := Emplace(c.jobs - {C.LINK}, C.PING, 0));
      SameSlots(c, c1, linked, Gone(d, u), l);
      ConnectAnswered(c1, Success, linked, Gone(d, u), l);
    } else if x.TearEcho? && c.status == C.Shutting {
      var c1 := c.(status := C.Finished, jobs := c.jobs - {C.TEAR});
      SameSlots(c, c1, linked, Gone(d, u), l);
      ShutdownAnswered(c1, Success, linked, Gone(d, u), l);
    } else {
      SameSlots(c, e, linked, Gone(d, u), l);
    }
  }

  lemma {:induction false} HeardAllTold(c: C.Connector, t: Trail, d: C.Connector, u: Trail, mine: set<Section>,
                                        theirs: set<Section>, secs: seq<Section>, now: nat, l: Log, cfg: Config)
    requires Pact(c, t, d, u, mine, theirs) && (CL.Alive(c.status) || c.status == C.Finished)
    requires forall x :: x in secs ==> x in theirs
    requires Told(c, t.linked, Gone(d, u), l)
    ensures Told(C.ParseAll(c, u.pin, secs, now, cfg), TrackAll(t, c, u.pin, secs, now, cfg).linked, Gone(d, u), l)
    decreases |secs|
  {
    hide Pact, C.ParseSection, TrackSection, Told;
    if secs != [] {
      HeardTold(c, t, d, u, mine, theirs, secs[0], now, l, cfg);
      HearPact(c, t, d, u, mine, theirs, secs[0], now, cfg);
      var e := C.ParseSection(c, u.pin, secs[0], now, cfg);
      HeardAllTold(e, TrackSection(t, c, e), d, u, mine, theirs, secs[1..], now, l, cfg);
    }
  }

  lemma JobTold(c: C.Connector, t: Trail, d: C.Connector, u: Trail, mine: set<Section>, theirs: set<Section>,
                k: nat, now: nat, repeat: nat, l: Log)
    requires Pact(c, t, d, u, mine, theirs) && k in c.jobs
    requires Told(c, t.linked, Gone(d, u), l)
    ensures var e := C.AfterJob(c, k, now, repeat); Told(e, Track(t, e).linked, Gone(d, u), l)
  {
    hide Told;
    var e := C.AfterJob(c, k, now, repeat);
    var linked := Track(t, e).linked;
    ToldGrows(c, t.linked, Gone(d, u), l, linked, Gone(d, u), l);
    if k == C.LINK_ECHO && c.status == C.Accepting {
      var c1 := c.(jobs := c.jobs - {C.LINK_ECHO}, status := C.Linked, dead := Never);
      SameSlots(c, c1, linked, Gone(d, u), l);
      ConnectAnswered(c1, Success, linked, Gone(d, u), l);
    } else if k == C.TEAR_ECHO && c.onShutdown != C.NoHandler {
      var c1 := c.(jobs := c.jobs - {C.TEAR_ECHO}, status := C.Finished);
      SameSlots(c, c1, linked, Gone(d, u), l);
      ShutdownAnswered(c1, Success, linked, Gone(d, u), l);
    } else {
      SameSlots(c, e, linked, Gone(d, u), l);
    }
  }

  lemma {:induction false} JobsTold(c: C.Connector, t: Trail, d: C.Connector, u: Trail, mine: set<Section>, theirs: set<Section>,
                                    room: nat, now: nat, repeat: nat, l: Log)
    requires Pact(c, t, d, u, mine, theirs)
    requires CL.Alive(c.status) || (c.status == C.Finished && t.pin != 0 && forall j :: j in C.Ready(c, now) ==> j >= C.PING)
    requires Told(c, t.linked, Gone(d, u), l)
    ensures C.JobsOk(c)
    ensures Told(C.RunJobs(c, room, now, repeat).connector, TrackJobs(t, c, room, now, repeat).linked, Gone(d, u), l)
    decreases |C.Ready(c, now)|
  {
    hide Pact, C.AfterJob, C.JobSection, Told;
    KnownInv(c, t, d, u, mine, theirs);
    if !(room < SECTION_HEADER || C.Ready(c, now) == {}) {
      var k := MinOf(C.Ready(c, now));
      var x := C.JobSection(c, k, now);
      JobFacts(c, t, d, u, mine, theirs, k, now, repeat);
      JobTold(c, t, d, u, mine, theirs, k, now, repeat, l);
      JobPact(c, t, d, u, mine, theirs, k, now, repeat);
      var e := C.AfterJob(c, k, now, repeat);
      var left := if SizeOf(x) <= room then room - SizeOf(x) else 0;
      JobsTold(e, Track(t, e), d, u, mine + {x}, theirs, left, now, repeat, l);
    }
  }

  lemma ErrorTold(c: C.Connector, code: Code, linked: bool, gone: bool, l: Log)
    requires Told(c, linked, gone, l) && code != Success && code in l.codes
    ensures Told(C.Error(c, code), linked, gone, l)
  {
    hide Told;
    var c1 := if c.onConnect != C.NoHandler then C.PostConnect(c, code) else c;
    if c.onConnect != C.NoHandler {
      ConnectAnswered(c, code, linked, gone, l);
    }
    var c2 := if c1.onShutdown != C.NoHandler then C.PostShutdown(c1, code) else c1;
    if c1.onShutdown != C.NoHandler {
      ShutdownAnswered(c1, code, linked, gone, l);
    }
    SameSlots(c2, C.Error(c, code), linked, gone, l);
  }

  // ---------------------------------------------------------------- writes

  /** Every write posted or pending was asked for; what is not a success failed with a given code, or found no space. */
  ghost predicate Reported(posted: seq<S.WritePost>, writers: seq<S.Writer>, ids: set<nat>, codes: set<Code>) {
    && (forall i :: 0 <= i < |posted| ==> WritePostOk(posted[i], ids, codes))
    && (forall i :: 0 <= i < |writers| ==> writers[i].id in ids)
  }

  ghost predicate WritePostOk(p: S.WritePost, ids: set<nat>, codes: set<Code>) {
    p.id in ids && (p.code == Success || p.code in codes || (p.code == NoBufferSpace && p.count == 0))
  }

  lemma {:induction false} SettleWrites(s: S.Sender, cursor: nat, ids: set<nat>, codes: set<Code>)
    requires Reported(s.posted, s.writers, ids, codes)
    ensures var t := S.Settle(s, cursor); Reported(t.posted, t.writers, ids, codes)
    decreases |s.writers|
  {
    if !(s.writers == [] || s.writers[0].head + s.writers[0].size > cursor) {
      var w := s.writers[0];
      SettleWrites(s.(writers := s.writers[1..], posted := s.posted + [S.WritePost(w.id, Success, w.size)]), cursor, ids, codes);
    }
  }

  lemma {:induction false} HeardWrites(s: S.Sender, secs: seq<Section>, ids: set<nat>, codes: set<Code>)
    requires Reported(s.posted, s.writers, ids, codes)
    ensures var t := S.Parse(s, secs); Reported(t.posted, t.writers, ids, codes)
    decreases |secs|
  {
    hide Reported, S.Settle, S.Cursor;
    if secs != [] {
      if secs[0].MoveEcho? {
        var t := s.(moves := s.moves - {secs[0].cursor});
        SettleWrites(t, S.Cursor(t), ids, codes);
      }
      HeardWrites(S.ParseSection(s, secs[0]), secs[1..], ids, codes);
    }
  }

  lemma {:induction false} CutWrites(s: S.Sender, room: nat, now: nat, repeat: nat, swarm: nat)
    requires s.head <= s.range
    ensures var t := S.Cut(s, room, now, repeat, swarm).sender; t.posted == s.posted && t.writers == s.writers
    decreases |s.queue|, if s.queue == [] then 0 else |s.queue[0]|
  {
    hide S.Cut, S.Pull, Concat, S.NoEmptyChunk, S.CutSection;
    S.CutUnfolds(s, room, now, repeat, swarm);
    var max := S.CutLimit(s, room, swarm);
    if max > 0 {
      CutWrites(S.CutOnce(s, max, now + repeat), room - SizeOf(S.CutSection(s, max)), now, repeat, swarm);
    }
  }

  lemma ImbueWrites(s: S.Sender, room: nat, now: nat, repeat: nat, cfg: Config)
    requires s.head <= s.range
    ensures var t := S.Imbue(s, room, now, repeat, cfg).sender; t.posted == s.posted && t.writers == s.writers
  {
    hide S.Resend, S.Cut, S.EchoEdges, S.SameFlights, SizeOfAll;
    S.ResendFrame(s, room, now, repeat, cfg.attempts);
    var first := S.Resend(s, room, now, repeat, cfg.attempts);
    if first.ok {
      CutWrites(first.sender, first.room, now, repeat, cfg.swarm);
      SL.EchoEdgesFrame(S.Cut(first.sender, first.room, now, repeat, cfg.swarm).sender,
                        S.Cut(first.sender, first.room, now, repeat, cfg.swarm).room);
    }
  }

  lemma ErrorWrites(s: S.Sender, code: Code, ids: set<nat>, codes: set<Code>)
    requires Reported(s.posted, s.writers, ids, codes) && code in codes
    ensures var t := S.Error(s, code); Reported(t.posted, t.writers, ids, codes)
  {
    var more := S.Refunds(s.writers, S.Cursor(s), code);
    SL.RefundsLength(s.writers, S.Cursor(s), code);
    forall i | 0 <= i < |more| ensures WritePostOk(more[i], ids, codes) {
      SL.RefundsAt(s.writers, S.Cursor(s), code, i);
    }
    hide S.Refunds;
  }

  lemma AppendWrites(s: S.Sender, buffer: seq<byte>, id: nat, ids: set<nat>, codes: set<Code>, cfg: Config)
    requires Reported(s.posted, s.writers, ids, codes) && s.head <= s.tail
    ensures var t := S.Append(s, buffer, id, cfg); Reported(t.posted, t.writers, ids + {id}, codes)
  {
  }

  lemma MoreWrites(posted: seq<S.WritePost>, writers: seq<S.Writer>, ids: set<nat>, codes: set<Code>, ids': set<nat>, codes': set<Code>)
    requires Reported(posted, writers, ids, codes) && ids <= ids' && codes <= codes'
    ensures Reported(posted, writers, ids', codes')
  {
  }

  // ---------------------------------------------------------------- one event

  /** What end `a` of the system and its log agree on. */
  ghost predicate EndOk(s: System, l: Log) {
    && Told(s.a.node.conn, s.a.trail.linked, Gone(s.b.node.conn, s.b.trail), l)
    && RL.Served(s.a.node.ist.posted, s.a.node.ist.readers, l.asked, l.codes + {ConnectionAborted})
    && Reported(s.a.node.ost.posted, s.a.node.ost.writers, l.writes, l.codes + {ConnectionAborted})
  }

  lemma DeliveryTold(s: System, p: Packet, now: nat, l: Log, cfg: Config)
    requires SysInv(s, cfg) && p in s.b.sent && C.Admits(s.a.node.conn, p.pin)
    requires Told(s.a.node.conn, s.a.trail.linked, Gone(s.b.node.conn, s.b.trail), l)
    ensures ChannelRuns.Ready(s, cfg)
    ensures var t := Delivery(s, p, now, cfg); Told(t.a.node.conn, t.a.trail.linked, Gone(t.b.node.conn, t.b.trail), l)
  {
    hide L.LinkInv, Pact, CL.Book, C.ParseAll, S.Parse, R.Parse, L.HeardAll, TrackAll, Told, S.Error, R.Error, Gone;
    NodeReady(s, cfg);
    var n := s.a.node;
    var c := n.conn.(seen := At(now));
    PinnedPhase(n.conn, s.a.trail, s.b.node.conn, s.b.trail, s.ab.forth, s.ba.forth);
    SeenPact(n.conn, s.a.trail, s.b.node.conn, s.b.trail, s.ab.forth, s.ba.forth, now);
    SameSlots(n.conn, c, s.a.trail.linked, Gone(s.b.node.conn, s.b.trail), l);
    HeardAllTold(c, s.a.trail, s.b.node.conn, s.b.trail, s.ab.forth, s.ba.forth, p.sections, now, l, cfg);
  }

  lemma ProductionTold(s: System, now: nat, repeat: nat, l: Log, cfg: Config)
    requires SysInv(s, cfg) && CL.Alive(s.a.node.conn.status)
    requires Told(s.a.node.conn, s.a.trail.linked, Gone(s.b.node.conn, s.b.trail), l)
    ensures ChannelRuns.Ready(s, cfg)
    ensures var t := Production(s, now, repeat, cfg); Told(t.a.node.conn, t.a.trail.linked, Gone(t.b.node.conn, t.b.trail), l)
  {
    hide L.LinkInv, Pact, CL.Book, C.RunJobs, R.Imbue, S.Imbue, TrackJobs, Told, Gone;
    NodeReady(s, cfg);
    var n := s.a.node;
    JobsTold(n.conn, s.a.trail, s.b.node.conn, s.b.trail, s.ab.forth, s.ba.forth, BodyRoom(cfg), now, repeat, l);
    SameSlots(n.conn, n.conn.(alarms := n.conn.alarms + [Interrupted]), s.a.trail.linked, Gone(s.b.node.conn, s.b.trail), l);
  }

  lemma FeedServed(n: Node, p: Packet, now: nat, asked: seq<RL.Ask>, codes: set<Code>, cfg: Config)
    requires NodeOk(n, cfg) && RL.Served(n.ist.posted, n.ist.readers, asked, codes) && ConnectionAborted in codes
    ensures var m := Feed(n, p, now, cfg); RL.Served(m.ist.posted, m.ist.readers, asked, codes)
  {
    hide RL.Served, R.Parse, R.Error, S.Parse, S.Error, C.Parse, S.Sound;
    RL.ParseServed(n.ist, p.sections, asked, codes, cfg);
    var ist := if Streaming(n.conn.status) then R.Parse(n.ist, p.sections, cfg) else n.ist;
    RL.ErrorServed(ist, ConnectionAborted, asked, codes);
  }

  lemma ProduceServed(n: Node, now: nat, repeat: nat, asked: seq<RL.Ask>, codes: set<Code>, cfg: Config)
    requires NodeOk(n, cfg) && RL.Served(n.ist.posted, n.ist.readers, asked, codes) && ConnectionAborted in codes
    ensures var m := Produce(n, now, repeat, cfg).node; RL.Served(m.ist.posted, m.ist.readers, asked, codes)
  {
    hide RL.Served, R.Imbue, R.Error, S.Imbue, S.Error, C.Imbue;
    RL.ErrorServed(n.ist, ConnectionAborted, asked, codes);
    var b1 := C.Imbue(n.conn, BodyRoom(cfg), now, repeat, cfg);
    RL.ImbueFrame(n.ist, b1.room, now, repeat);
  }

  lemma FeedReported(n: Node, p: Packet, now: nat, ids: set<nat>, codes: set<Code>, cfg: Config)
    requires NodeOk(n, cfg) && Reported(n.ost.posted, n.ost.writers, ids, codes) && ConnectionAborted in codes
    ensures var m := Feed(n, p, now, cfg); Reported(m.ost.posted, m.ost.writers, ids, codes)
  {
    hide Reported, R.Parse, R.Error, S.Parse, S.Error, C.Parse, S.Sound;
    HeardWrites(n.ost, p.sections, ids, codes);
    var ost := if Streaming(n.conn.status) then S.Parse(n.ost, p.sections) else n.ost;
    ErrorWrites(ost, ConnectionAborted, ids, codes);
  }

  lemma ProduceReported(n: Node, now: nat, repeat: nat, ids: set<nat>, codes: set<Code>, cfg: Config)
    requires NodeOk(n, cfg) && Reported(n.ost.posted, n.ost.writers, ids, codes) && ConnectionAborted in codes
    ensures var m := Produce(n, now, repeat, cfg).node; Reported(m.ost.posted, m.ost.writers, ids, codes)
  {
    hide Reported, R.Imbue, R.Error, S.Imbue, S.Error, C.Imbue;
    ErrorWrites(n.ost, ConnectionAborted, ids, codes);
    var b1 := C.Imbue(n.conn, BodyRoom(cfg), now, repeat, cfg);
    var b2 := R.Imbue(n.ist, b1.room, now, repeat);
    ImbueWrites(n.ost, b2.room, now, repeat, cfg);
  }

  lemma CallReported(s: System, e: Event, l: Log, cfg: Config)
    requires SysInv(s, cfg) && ChannelRuns.Ready(s, cfg) && Legal(s, e, cfg) && EndOk(s, l) && !e.Deliver? && !e.Emit?
    ensures var t := StepA(s, e, cfg); var m := Noted(l, s.a.node, e);
            Reported(t.a.node.ost.posted, t.a.node.ost.writers, m.writes, m.codes + {ConnectionAborted})
  {
    hide SysInv, RL.Served, Told, Reported, R.Append, R.Error, S.Error, S.Append;
    var n, m := s.a.node, Noted(l, s.a.node, e);
    MoreWrites(n.ost.posted, n.ost.writers, l.writes, l.codes + {ConnectionAborted}, m.writes, m.codes + {ConnectionAborted});
    match e
    case CallWrite(buffer, id) => AppendWrites(n.ost, buffer, id, l.writes, l.codes + {ConnectionAborted}, cfg);
    case Close(code) => ErrorWrites(n.ost, code, m.writes, m.codes + {ConnectionAborted});
    case _ =>
  }

  lemma ServedGrows(posted: seq<R.ReadPost>, readers: seq<R.Reader>, asked: seq<RL.Ask>, codes: set<Code>, more: set<Code>)
    requires RL.Served(posted, readers, asked, codes) && codes <= more
    ensures RL.Served(posted, readers, asked, more)
  {
  }

  lemma CallServed(s: System, e: Event, l: Log, cfg: Config)
    requires SysInv(s, cfg) && ChannelRuns.Ready(s, cfg) && Legal(s, e, cfg) && EndOk(s, l) && !e.Deliver? && !e.Emit?
    ensures var t := StepA(s, e, cfg); var m := Noted(l, s.a.node, e);
            RL.Served(t.a.node.ist.posted, t.a.node.ist.readers, m.asked, m.codes + {ConnectionAborted})
  {
    hide SysInv, RL.Served, Told, Reported, R.Append, R.Error, S.Error, S.Append, S.Sound;
    var n := s.a.node;
    match e
    case CallRead(size, id) =>
      RL.AppendServed(n.ist, size, id, l.asked, l.codes + {ConnectionAborted});
    case Close(code) =>
      ServedGrows(n.ist.posted, n.ist.readers, l.asked, l.codes + {ConnectionAborted}, l.codes + {code} + {ConnectionAborted});
      RL.ErrorServed(n.ist, code, l.asked, l.codes + {code} + {ConnectionAborted});
    case _ =>
  }

  lemma CallTold(s: System, e: Event, l: Log, cfg: Config)
    requires SysInv(s, cfg) && ChannelRuns.Ready(s, cfg) && Legal(s, e, cfg) && EndOk(s, l) && !e.Deliver? && !e.Emit?
    ensures var t := StepA(s, e, cfg); var m := Noted(l, s.a.node, e);
            Told(t.a.node.conn, t.a.trail.linked, Gone(t.b.node.conn, t.b.trail), m)
  {
    hide SysInv, RL.Served, Told, Reported, R.Append, R.Error, S.Error, S.Append, S.Sound, C.Error, C.Refuse, Gone;
    var c, t := s.a.node.conn, StepA(s, e, cfg);
    var gone := Gone(s.b.node.conn, s.b.trail);
    var m := Noted(l, s.a.node, e);
    ToldGrows(c, s.a.trail.linked, gone, l, t.a.trail.linked, gone, m);
    match e
    case CallConnect(id, _, _) =>
      if c.status == C.Initial {
        Joins(c, t.a.node.conn, id, t.a.trail.linked, gone, m);
      }
    case CallAccept(id, _, _) =>
      if c.status == C.Initial {
        Joins(c, t.a.node.conn, id, t.a.trail.linked, gone, m);
      }
    case CallShutdown(id, now) =>
      if c.status == C.Linked || c.status == C.Tearing {
        Leaves(c, t.a.node.conn, id, t.a.trail.linked, gone, m);
      } else {
        Refused(c, id, AtOnce(c.status), t.a.trail.linked, gone, m);
      }
    case Close(code) => ErrorTold(c, code, t.a.trail.linked, gone, m);
    case _ =>
  }

  lemma Joins(c: C.Connector, d: C.Connector, id: nat, linked: bool, gone: bool, l: Log)
    requires Told(c, linked, gone, l) && id in l.joins
    requires d.posted == c.posted && d.onConnect == C.Handler(id) && d.onShutdown == c.onShutdown
    ensures Told(d, linked, gone, l)
  {
  }

  lemma Leaves(c: C.Connector, d: C.Connector, id: nat, linked: bool, gone: bool, l: Log)
    requires Told(c, linked, gone, l) && id in l.leaves
    requires d.posted == c.posted && d.onShutdown == C.Handler(id) && d.onConnect == c.onConnect
    ensures Told(d, linked, gone, l)
  {
  }

  lemma StepOk(s: System, e: Event, l: Log, cfg: Config)
    requires SysInv(s, cfg) && ChannelRuns.Ready(s, cfg) && Legal(s, e, cfg) && EndOk(s, l)
    ensures EndOk(StepA(s, e, cfg), Noted(l, s.a.node, e))
  {
    hide SysInv, RL.Served, Told, Reported, Production, Feed, Produce, Harmless, Gone;
    match e
    case Deliver(p, now) =>
      FeedServed(s.a.node, p, now, l.asked, l.codes + {ConnectionAborted}, cfg);
      FeedReported(s.a.node, p, now, l.writes, l.codes + {ConnectionAborted}, cfg);
      if C.Admits(s.a.node.conn, p.pin) {
        DeliveryTold(s, p, now, l, cfg);
        DeliveryNode(s, p, now, cfg);
      }
    case Emit(now, repeat, stale) =>
      ProduceServed(s.a.node, now, repeat, l.asked, l.codes + {ConnectionAborted}, cfg);
      ProduceReported(s.a.node, now, repeat, l.writes, l.codes + {ConnectionAborted}, cfg);
      EmissionNode(s, now, repeat, stale, cfg);
      if s.a.node.conn.status == C.Finished {
        FinishedTold(s, now, repeat, cfg);
      } else {
        PhaseKnown(s, cfg);
        ProductionTold(s, now, repeat, l, cfg);
      }
    case _ =>
      CallServed(s, e, l, cfg);
      CallReported(s, e, l, cfg);
      CallTold(s, e, l, cfg);
  }

  lemma DeliveryNode(s: System, p: Packet, now: nat, cfg: Config)
    requires ChannelRuns.Ready(s, cfg) && C.Admits(s.a.node.conn, p.pin)
    ensures Delivery(s, p, now, cfg).a.node == Feed(s.a.node, p, now, cfg)
  {
    hide Feed, TrackAll, L.HeardAll;
  }

  lemma EmissionNode(s: System, now: nat, repeat: nat, stale: seq<Section>, cfg: Config)
    requires ChannelRuns.Ready(s, cfg)
    ensures var t := Emission(s, now, repeat, stale, cfg); var u := Production(s, now, repeat, cfg);
            t.a.node == u.a.node == Produce(s.a.node, now, repeat, cfg).node && t.a.trail == u.a.trail && t.b == u.b == s.b
  {
    hide Produce, TrackJobs, Join, Sent;
  }

  lemma FinishedTold(s: System, now: nat, repeat: nat, cfg: Config)
    requires ChannelRuns.Ready(s, cfg) && s.a.node.conn.status == C.Finished
    ensures Production(s, now, repeat, cfg).a.trail == s.a.trail
    ensures Produce(s.a.node, now, repeat, cfg).node.conn == s.a.node.conn
  {
  }

  /** The far end's log stands: its peer can only have gone further. */
  lemma FarOk(s: System, e: Event, l: Log, cfg: Config)
    requires SysInv(s, cfg) && ChannelRuns.Ready(s, cfg) && Legal(s, e, cfg) && EndOk(Swap(s), l)
    ensures EndOk(Swap(StepA(s, e, cfg)), l)
  {
    hide SysInv, RL.Served, Told, Reported, StepA, Legal, RL.Delivered;
    StepGrows(s, e, cfg);
    FarEndStays(s, e, cfg);
    var t := StepA(s, e, cfg);
    ToldGrows(s.b.node.conn, s.b.trail.linked, Gone(s.a.node.conn, s.a.trail), l, s.b.trail.linked,
              Gone(t.a.node.conn, t.a.trail), l);
  }

  // ---------------------------------------------------------------- every run

  ghost predicate BothOk(s: System, la: Log, lb: Log) {
    EndOk(s, la) && EndOk(Swap(s), lb)
  }

  lemma TakeOk(s: System, turn: Turn, la: Log, lb: Log, cfg: Config)
    requires SysInv(s, cfg) && ChannelRuns.Ready(View(s, turn.atA), cfg) && Legal(View(s, turn.atA), turn.event, cfg)
    requires BothOk(s, la, lb)
    ensures BothOk(Take(s, turn, cfg),
                   if turn.atA then Noted(la, s.a.node, turn.event) else la,
                   if turn.atA then lb else Noted(lb, s.b.node, turn.event))
  {
    hide SysInv, EndOk, StepA, Legal, Noted;
    if turn.atA {
      StepOk(s, turn.event, la, cfg);
      FarOk(s, turn.event, lb, cfg);
    } else {
      Symmetric(s, cfg);
      StepOk(Swap(s), turn.event, lb, cfg);
      FarOk(Swap(s), turn.event, la, cfg);
    }
  }

  lemma {:induction false} RunOk(s: System, turns: seq<Turn>, la: Log, lb: Log, cfg: Config)
    requires SysInv(s, cfg) && LegalRun(s, turns, cfg) && BothOk(s, la, lb)
    ensures BothOk(Exec(s, turns, cfg), Logged(s, turns, true, la, cfg), Logged(s, turns, false, lb, cfg))
    decreases |turns|
  {
    hide SysInv, BothOk, Take, Noted;
    if turns != [] {
      TakeKeeps(s, turns[0], cfg);
      TakeOk(s, turns[0], la, lb, cfg);
      RunOk(Take(s, turns[0], cfg), turns[1..],
            if turns[0].atA then Noted(la, s.a.node, turns[0].event) else la,
            if turns[0].atA then lb else Noted(lb, s.b.node, turns[0].event), cfg);
    }
  }

  lemma BlankOk(cfg: Config)
    ensures BothOk(Start(cfg), BLANK, BLANK)
  {
  }

  lemma LogHolds(turns: seq<Turn>, atA: bool, cfg: Config)
    requires LegalRun(Start(cfg), turns, cfg)
    ensures var v := View(Exec(Start(cfg), turns, cfg), atA);
            SysInv(v, cfg) && EndOk(v, Logged(Start(cfg), turns, atA, BLANK, cfg))
  {
    hide SysInv, EndOk, LegalRun, Exec, Logged, Start;
    StartHolds(cfg);
    BlankOk(cfg);
    RunKeeps(Start(cfg), turns, cfg);
    RunOk(Start(cfg), turns, BLANK, BLANK, cfg);
    if !atA {
      Symmetric(Exec(Start(cfg), turns, cfg), cfg);
    }
  }

  /**
   * In every run, whatever a handler is told, unless it is what the phase of its `shutdown` let it hear at once: a
   * `shutdown` handler given while linked or tearing hears of success only if the peer is finished or had begun a shutdown
   * of its own; a `connect` or `accept` handler hears of success only if the end has been linked, and a caller's only if
   * the listener has been too; any other code is one the end was closed with.
   */
  lemma HandlersAreToldTheTruth(turns: seq<Turn>, atA: bool, i: nat, cfg: Config)
    requires LegalRun(Start(cfg), turns, cfg)
    requires i < |View(Exec(Start(cfg), turns, cfg), atA).a.node.conn.posted|
    ensures var v := View(Exec(Start(cfg), turns, cfg), atA);
            var l := Logged(Start(cfg), turns, atA, BLANK, cfg);
            var p := v.a.node.conn.posted[i];
            && p.handler != C.NoHandler
            && ((p.handler.id, p.code) !in l.turned ==>
                  && p.handler.id in l.joins + l.leaves
                  && (p.code == Success && p.handler.id !in l.joins ==> v.b.node.conn.status == C.Finished || v.b.trail.begun)
                  && (p.code == Success && p.handler.id !in l.leaves ==>
                        v.a.trail.linked && (v.a.trail.role == Caller ==> v.b.trail.linked))
                  && (p.code != Success ==> p.code in l.codes))
  {
    hide SysInv, LegalRun, Exec, Logged, Start, RL.Served, Reported;
    LogHolds(turns, atA, cfg);
    var v := View(Exec(Start(cfg), turns, cfg), atA);
    LinkedTogether(v, cfg);
    var l := Logged(Start(cfg), turns, atA, BLANK, cfg);
    assert PostOk(v.a.node.conn.posted[i], v.a.trail.linked, Gone(v.b.node.conn, v.b.trail), l);
  }

  lemma LinkedTogether(s: System, cfg: Config)
    requires SysInv(s, cfg)
    ensures s.a.trail.linked && s.a.trail.role == Caller ==> s.b.trail.linked
  {
    hide L.LinkInv, SideOk;
  }

  /**
   * In every run, reads are answered in the order of the calls, each once: a success has filled its whole buffer, and a
   * failure carries a code the end was closed with, or the connection was aborted.
   */
  lemma ReadsAreAnsweredInTurn(turns: seq<Turn>, atA: bool, i: nat, cfg: Config)
    requires LegalRun(Start(cfg), turns, cfg)
    requires i < |View(Exec(Start(cfg), turns, cfg), atA).a.node.ist.posted|
    ensures var r := View(Exec(Start(cfg), turns, cfg), atA).a.node.ist;
            var l := Logged(Start(cfg), turns, atA, BLANK, cfg);
            && |r.posted| + |r.readers| == |l.asked|
            && r.posted[i].id == l.asked[i].id
            && (r.posted[i].code == Success ==> |r.posted[i].bytes| == l.asked[i].size)
            && (r.posted[i].code != Success ==> r.posted[i].code in l.codes + {ConnectionAborted})
  {
    hide SysInv, LegalRun, Exec, Logged, Start, Told, Reported;
    LogHolds(turns, atA, cfg);
    var r := View(Exec(Start(cfg), turns, cfg), atA).a.node.ist;
    var l := Logged(Start(cfg), turns, atA, BLANK, cfg);
    assert RL.Answers(r.posted[i], l.asked[i], l.codes + {ConnectionAborted});
  }

  /**
   * In every run, a write that failed found no space, and then reports no byte, or carries a code the end was closed with,
   * or the connection was aborted; nobody is told of a write that was not asked for.
   */
  lemma FailedWritesSayWhy(turns: seq<Turn>, atA: bool, i: nat, cfg: Config)
    requires LegalRun(Start(cfg), turns, cfg)
    requires i < |View(Exec(Start(cfg), turns, cfg), atA).a.node.ost.posted|
    ensures var p := View(Exec(Start(cfg), turns, cfg), atA).a.node.ost.posted[i];
            var l := Logged(Start(cfg), turns, atA, BLANK, cfg);
            && p.id in l.writes
            && (p.code != Success ==> p.code in l.codes + {ConnectionAborted} || (p.code == NoBufferSpace && p.count == 0))
  {
    hide SysInv, LegalRun, Exec, Logged, Start, Told, RL.Served;
    LogHolds(turns, atA, cfg);
    var l := Logged(Start(cfg), turns, atA, BLANK, cfg);
    assert WritePostOk(View(Exec(Start(cfg), turns, cfg), atA).a.node.ost.posted[i], l.writes, l.codes + {ConnectionAborted});
  }
}
