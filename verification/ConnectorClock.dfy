/** The deadlines of a connection: when, exactly, an end gives up. */
module ConnectorClock {
  import opened Containers
  import opened Protocol
  import opened Channel
  import opened ChannelRuns
  import opened ChannelLaws
  import opened ChannelTheorems
  import C = Connecting
  import S = Sending
  import R = Receiving
  import CL = ConnectorLaws
  import L = StreamLink

  /**
   * Whether it was `connect` that was called, when it or `accept` was, when the last packet was heard, and when leaving
   * began: with the last call of `shutdown`, or with the first tear heard.
   */
  datatype Marks = Marks(calling: bool, called: nat, heard: Time, left: nat)

  const UNMARKED: Marks := Marks(false, 0, Never, 0)

  /** The marks after an event that took an end from state n to state `after`. */
  function Marked(m: Marks, n: Node, e: Event, after: Node): Marks {
    match e
    case CallConnect(_, _, now) => if n.conn.status == C.Initial then m.(calling := true, called := now) else m
    case CallAccept(_, _, now) => if n.conn.status == C.Initial then m.(called := now) else m
    case CallShutdown(_, now) => if n.conn.status == C.Linked || n.conn.status == C.Tearing then m.(left := now) else m
    case Deliver(p, now) =>
      if C.Admits(n.conn, p.pin) then Left(m.(heard := At(now)), n.conn.status, after.conn.status, now) else m
    case _ => m
  }

  function Left(m: Marks, before: C.Status, after: C.Status, now: nat): Marks {
    if before != C.Tearing && after == C.Tearing then m.(left := now) else m
  }

  /** The marks of end `a` or `b` once the turns have been taken from state s. */
  ghost function MarksOf(s: System, turns: seq<Turn>, atA: bool, m: Marks, cfg: Config): Marks
    decreases |turns|
  {
    if turns == [] then m
    else
      var t := Take(s, turns[0], cfg);
      MarksOf(t, turns[1..], atA,
              if turns[0].atA == atA then Marked(m, View(s, atA).a.node, turns[0].event, View(t, atA).a.node) else m, cfg)
  }

  /** What the clocks of a connector show. */
  ghost predicate Clock(c: C.Connector, m: Marks, cfg: Config) {
    && (c.status != C.Finished ==> c.seen == m.heard)
    && (c.status == C.Neither || c.status == C.Initial ==> c.dead == Never && c.local == 0 && C.LINK_ECHO !in c.jobs)
    && (c.status == C.Connecting ==> c.dead == At(m.called + cfg.connectTimeout))
    && (c.status == C.Accepting ==> c.dead == At(m.called + cfg.acceptTimeout))
    && (c.status == C.Linked ==> c.dead == Never && m.heard.At?)
    && (c.status == C.Shutting || c.status == C.Tearing ==> c.dead == At(m.left + cfg.shutdownTimeout))
    && (C.LINK_ECHO in c.jobs ==> m.heard.At?)
    && (c.status == C.Initial ==> !m.calling)
    && (c.status == C.Accepting ==> !m.calling)
    && (c.status == C.Linked && m.calling ==> C.PING in c.jobs)
  }

  /** Hearing packets takes a connector along these ways only. */
  predicate Way(a: C.Status, b: C.Status) {
    || a == b
    || (a == C.Connecting && (b == C.Linked || b == C.Tearing))
    || (a == C.Linked && b == C.Tearing)
    || (a == C.Shutting && b == C.Finished)
  }

  lemma SectionClock(c: C.Connector, m: Marks, pin: nat, x: Section, now: nat, cfg: Config)
    requires Clock(c, m, cfg) && m.heard == At(now) && c.status != C.Neither && c.status != C.Initial
    ensures var e := C.ParseSection(c, pin, x, now, cfg);
            Clock(e, Left(m, c.status, e.status, now), cfg) && Way(c.status, e.status)
  {
  }

  lemma {:induction false} PacketClock(c: C.Connector, m: Marks, pin: nat, secs: seq<Section>, now: nat, cfg: Config)
    requires Clock(c, m, cfg) && m.heard == At(now) && c.status != C.Neither && c.status != C.Initial
    ensures var e := C.ParseAll(c, pin, secs, now, cfg);
            Clock(e, Left(m, c.status, e.status, now), cfg) && Way(c.status, e.status)
    decreases |secs|
  {
    hide C.ParseSection, Clock;
    if secs != [] {
      SectionClock(c, m, pin, secs[0], now, cfg);
      var d := C.ParseSection(c, pin, secs[0], now, cfg);
      PacketClock(d, Left(m, c.status, d.status, now), pin, secs[1..], now, cfg);
      var e := C.ParseAll(d, pin, secs[1..], now, cfg);
      LaterClock(e, Left(Left(m, c.status, d.status, now), d.status, e.status, now), Left(m, c.status, e.status, now), cfg);
    }
  }

  /** Only an end that is leaving looks at when it began to. */
  lemma LaterClock(c: C.Connector, m: Marks, k: Marks, cfg: Config)
    requires Clock(c, m, cfg) && m.calling == k.calling && m.called == k.called && m.heard == k.heard
    requires c.status == C.Shutting || c.status == C.Tearing ==> m.left == k.left
    ensures Clock(c, k, cfg)
  {
  }

  lemma {:induction false} JobsClock(c: C.Connector, m: Marks, room: nat, now: nat, repeat: nat, cfg: Config)
    requires C.JobsOk(c) && Clock(c, m, cfg)
    ensures Clock(C.RunJobs(c, room, now, repeat).connector, m, cfg)
    decreases |C.Ready(c, now)|
  {
    hide C.AfterJob, C.JobSection, Clock, C.JobsOk;
    if !(room < SECTION_HEADER || C.Ready(c, now) == {}) {
      var k := MinOf(C.Ready(c, now));
      CL.ReadyJob(c, k, now, repeat);
      var x := C.JobSection(c, k, now);
      var d := C.AfterJob(c, k, now, repeat);
      JobClock(c, m, k, now, repeat, cfg);
      JobsClock(d, m, if SizeOf(x) <= room then room - SizeOf(x) else 0, now, repeat, cfg);
    }
  }

  lemma JobClock(c: C.Connector, m: Marks, k: nat, now: nat, repeat: nat, cfg: Config)
    requires k in c.jobs && Clock(c, m, cfg)
    ensures Clock(C.AfterJob(c, k, now, repeat), m, cfg)
  {
  }

  lemma {:induction false} JobsAlarms(c: C.Connector, room: nat, now: nat, repeat: nat)
    requires C.JobsOk(c)
    ensures C.RunJobs(c, room, now, repeat).connector.alarms == c.alarms
    decreases |C.Ready(c, now)|
  {
    hide C.JobSection, C.JobsOk;
    if !(room < SECTION_HEADER || C.Ready(c, now) == {}) {
      var k := MinOf(C.Ready(c, now));
      CL.ReadyJob(c, k, now, repeat);
      var x := C.JobSection(c, k, now);
      JobsAlarms(C.AfterJob(c, k, now, repeat), if SizeOf(x) <= room then room - SizeOf(x) else 0, now, repeat);
    }
  }

  // ---------------------------------------------------------------- every run

  lemma FeedClock(n: Node, p: Packet, now: nat, m: Marks, cfg: Config)
    requires NodeOk(n, cfg) && Clock(n.conn, m, cfg) && C.Admits(n.conn, p.pin)
    ensures var e := Feed(n, p, now, cfg).conn; Clock(e, Left(m.(heard := At(now)), n.conn.status, e.status, now), cfg)
  {
    hide S.Parse, R.Parse, S.Error, R.Error, C.ParseAll, S.Sound, R.FillsFit;
    PacketClock(n.conn.(seen := At(now)), m.(heard := At(now)), p.pin, p.sections, now, cfg);
  }

  lemma ProduceClock(n: Node, now: nat, repeat: nat, m: Marks, cfg: Config)
    requires NodeOk(n, cfg) && Clock(n.conn, m, cfg)
    ensures Clock(Produce(n, now, repeat, cfg).node.conn, m, cfg)
  {
    hide S.Imbue, R.Imbue, S.Error, R.Error, C.RunJobs, S.Sound, R.FillsFit;
    JobsClock(n.conn, m, BodyRoom(cfg), now, repeat, cfg);
  }

  lemma StepClock(s: System, e: Event, m: Marks, cfg: Config)
    requires ChannelRuns.Ready(s, cfg) && Clock(s.a.node.conn, m, cfg)
    ensures var t := StepA(s, e, cfg); Clock(t.a.node.conn, Marked(m, s.a.node, e, t.a.node), cfg)
  {
    hide Feed, Produce, S.Append, R.Append, S.Error, R.Error, L.AfterWrite, CL.Replaced;
    match e
    case Deliver(p, now) =>
      if C.Admits(s.a.node.conn, p.pin) {
        FeedClock(s.a.node, p, now, m, cfg);
      }
    case Emit(now, repeat, stale) => ProduceClock(s.a.node, now, repeat, m, cfg);
    case _ =>
  }

  lemma {:induction false} RunClock(s: System, turns: seq<Turn>, atA: bool, m: Marks, cfg: Config)
    requires LegalRun(s, turns, cfg) && Clock(View(s, atA).a.node.conn, m, cfg)
    ensures Clock(View(Exec(s, turns, cfg), atA).a.node.conn, MarksOf(s, turns, atA, m, cfg), cfg)
    decreases |turns|
  {
    hide Clock, Marked, StepA, ChannelRuns.Ready, Legal;
    if turns != [] {
      var v := View(s, turns[0].atA);
      if turns[0].atA == atA {
        StepClock(v, turns[0].event, m, cfg);
      } else {
        FarEndStays(v, turns[0].event, cfg);
      }
      RunClock(Take(s, turns[0], cfg), turns[1..], atA,
               if turns[0].atA == atA then Marked(m, v.a.node, turns[0].event, View(Take(s, turns[0], cfg), atA).a.node) else m, cfg);
    }
  }

  lemma StartClock(atA: bool, cfg: Config)
    ensures Clock(View(Start(cfg), atA).a.node.conn, UNMARKED, cfg)
  {
  }

  /** The deadline of the phase has passed. */
  predicate TooLate(s: C.Status, m: Marks, now: nat, cfg: Config) {
    match s
    case Connecting => now > m.called + cfg.connectTimeout
    case Accepting => now > m.called + cfg.acceptTimeout
    case Linked => m.heard.At? && now > m.heard.t + cfg.pingTimeout + 5000000
    case Shutting => now > m.left + cfg.shutdownTimeout
    case Tearing => now > m.left + cfg.shutdownTimeout
    case _ => false
  }

  /**
   * In every run, at every time: an end that is not finished gives up, raising `interrupted` and sending nothing of its
   * connector, exactly if a `connect` or `accept` has gone unanswered for its timeout, a linked peer has been silent for
   * the ping timeout and five seconds, or leaving has taken longer than its timeout. Otherwise it raises nothing.
   */
  lemma GivesUpIff(turns: seq<Turn>, atA: bool, room: nat, now: nat, repeat: nat, cfg: Config)
    requires LegalRun(Start(cfg), turns, cfg)
    requires View(Exec(Start(cfg), turns, cfg), atA).a.node.conn.status != C.Finished
    ensures var c := View(Exec(Start(cfg), turns, cfg), atA).a.node.conn;
            && C.JobsOk(c)
            && var b := C.Imbue(c, room, now, repeat, cfg);
            if TooLate(c.status, MarksOf(Start(cfg), turns, atA, UNMARKED, cfg), now, cfg) then
              b == C.Burst(c.(alarms := c.alarms + [Interrupted]), [], room)
            else b.connector.alarms == c.alarms && b == C.RunJobs(c, room, now, repeat)
  {
    hide Exec, LegalRun, Start, MarksOf, Clock, C.RunJobs;
    StartClock(atA, cfg);
    RunClock(Start(cfg), turns, atA, UNMARKED, cfg);
    RunReady(turns, atA, cfg);
    var c := View(Exec(Start(cfg), turns, cfg), atA).a.node.conn;
    ClockShows(c, MarksOf(Start(cfg), turns, atA, UNMARKED, cfg), now, cfg);
    JobsAlarms(c, room, now, repeat);
  }

  lemma ClockShows(c: C.Connector, m: Marks, now: nat, cfg: Config)
    requires Clock(c, m, cfg) && c.status != C.Finished
    ensures C.TimedOut(c, now, cfg) <==> TooLate(c.status, m, now, cfg)
  {
  }

  lemma RunReady(turns: seq<Turn>, atA: bool, cfg: Config)
    requires LegalRun(Start(cfg), turns, cfg)
    ensures C.JobsOk(View(Exec(Start(cfg), turns, cfg), atA).a.node.conn)
  {
    hide Exec, LegalRun, Start, SysInv;
    StartHolds(cfg);
    RunKeeps(Start(cfg), turns, cfg);
    if !atA {
      Symmetric(Exec(Start(cfg), turns, cfg), cfg);
    }
    NodeReady(View(Exec(Start(cfg), turns, cfg), atA), cfg);
  }

  /** In every run a linked caller keeps a ping to send, so that neither end falls silent for good. */
  lemma CallersPing(turns: seq<Turn>, atA: bool, cfg: Config)
    requires LegalRun(Start(cfg), turns, cfg)
    requires MarksOf(Start(cfg), turns, atA, UNMARKED, cfg).calling
    requires View(Exec(Start(cfg), turns, cfg), atA).a.node.conn.status == C.Linked
    ensures C.PING in View(Exec(Start(cfg), turns, cfg), atA).a.node.conn.jobs
  {
    hide Exec, LegalRun, Start, MarksOf;
    StartClock(atA, cfg);
    RunClock(Start(cfg), turns, atA, UNMARKED, cfg);
  }
}
