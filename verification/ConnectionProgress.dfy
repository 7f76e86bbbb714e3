/**
 * From every reached state in which two ends are still on their way to being linked, some run goes on until they are, and
 * from every one in which an end leaves an established connection, some run goes on until both are finished.
 */
module ConnectionProgress {
  import opened Containers
  import opened Protocol
  import opened Channel
  import opened ChannelRuns
  import opened ChannelLaws
  import opened ChannelTheorems
  import opened ChannelProgress
  import opened Handshake
  import C = Connecting
  import S = Sending
  import R = Receiving
  import CL = ConnectorLaws
  import L = StreamLink

  // ---------------------------------------------------------------- what a connector makes of requests

  /** What a packet leaves to be echoed. */
  ghost predicate Asked(c: C.Connector, e: C.Connector, secs: seq<Section>) {
    && (Link in secs || C.LINK_ECHO in c.jobs ==> C.LINK_ECHO in e.jobs)
    && (Tear in secs || C.TEAR_ECHO in c.jobs ==> C.TEAR_ECHO in e.jobs)
    && ((exists v :: Ping(v) in secs) || C.PING_ECHO in c.jobs ==> C.PING_ECHO in e.jobs)
    && (Tear !in secs && C.TEAR_ECHO !in c.jobs ==> C.TEAR_ECHO !in e.jobs)
  }

  lemma SectionAsks(c: C.Connector, pin: nat, x: Section, now: nat, cfg: Config)
    ensures var e := C.ParseSection(c, pin, x, now, cfg);
            Asked(c, e, [x]) && c.posted <= e.posted && e.seen == c.seen && e.local == c.local
  {
  }

  lemma AsksOn(c: C.Connector, d: C.Connector, e: C.Connector, secs: seq<Section>)
    requires secs != [] && Asked(c, d, [secs[0]]) && Asked(d, e, secs[1..])
    ensures Asked(c, e, secs)
  {
    assert forall x :: x in secs <==> x in [secs[0]] || x in secs[1..];
  }

  /** Requests heard leave their echoes to be sent, and what was to be echoed before still is. */
  lemma {:induction false} RequestsHeard(c: C.Connector, pin: nat, secs: seq<Section>, now: nat, cfg: Config)
    ensures var e := C.ParseAll(c, pin, secs, now, cfg);
            Asked(c, e, secs) && c.posted <= e.posted && e.seen == c.seen && e.local == c.local
    decreases |secs|
  {
    hide C.ParseSection, Asked;
    if secs == [] {
      NothingAsked(c);
    } else {
      var d := C.ParseSection(c, pin, secs[0], now, cfg);
      SectionAsks(c, pin, secs[0], now, cfg);
      RequestsHeard(d, pin, secs[1..], now, cfg);
      AsksOn(c, d, C.ParseAll(d, pin, secs[1..], now, cfg), secs);
    }
  }

  lemma NothingAsked(c: C.Connector)
    ensures Asked(c, c, [])
  {
  }

  /** How the phase goes on when a packet has been heard. */
  function PhaseHeard(s: C.Status, secs: seq<Section>): C.Status {
    match s
    case Connecting => if LinkEcho in secs then C.Linked else C.Connecting
    case Linked => if Tear in secs then C.Tearing else C.Linked
    case Shutting => if TearEcho in secs then C.Finished else C.Shutting
    case _ => s
  }

  lemma SectionPhase(c: C.Connector, pin: nat, x: Section, now: nat, cfg: Config)
    ensures var e := C.ParseSection(c, pin, x, now, cfg);
            && e.status == PhaseHeard(c.status, [x])
            && PhaseKept(c, e, now, cfg)
            && c.posted <= e.posted
  {
    assert forall p: C.Post :: p in c.posted + [p];
  }

  /** What goes with a phase that is kept or left. */
  ghost predicate PhaseKept(c: C.Connector, e: C.Connector, now: nat, cfg: Config) {
    && (e.status == c.status ==> e.dead == c.dead)
    && (c.status == C.Linked && e.status == C.Tearing ==> e.dead == At(now + cfg.shutdownTimeout))
    && (c.status == C.Shutting && e.status == C.Finished ==> C.Post(c.onShutdown, Success) in e.posted)
    && (!(c.status == C.Shutting && e.status == C.Finished) ==> e.onShutdown == c.onShutdown)
    && (c.status == C.Connecting && e.status == C.Linked ==> C.Post(c.onConnect, Success) in e.posted)
    && (!(c.status == C.Connecting && e.status == C.Linked) ==> e.onConnect == c.onConnect)
  }

  lemma KeptOn(c: C.Connector, d: C.Connector, e: C.Connector, now: nat, cfg: Config)
    requires PhaseKept(c, d, now, cfg) && PhaseKept(d, e, now, cfg) && d.posted <= e.posted
    requires d.status == c.status || e.status == d.status
    requires c.status == C.Connecting ==> e.status != C.Tearing
    ensures PhaseKept(c, e, now, cfg)
  {
    PostsStay(d.posted, e.posted);
  }

  lemma {:induction false} PhaseAfter(c: C.Connector, pin: nat, secs: seq<Section>, now: nat, cfg: Config)
    requires c.status == C.Connecting ==> Tear !in secs
    ensures var e := C.ParseAll(c, pin, secs, now, cfg); e.status == PhaseHeard(c.status, secs) && PhaseKept(c, e, now, cfg)
    decreases |secs|
  {
    hide C.ParseSection, PhaseKept;
    if secs == [] {
      SelfKept(c, now, cfg);
    } else {
      var d := C.ParseSection(c, pin, secs[0], now, cfg);
      SectionPhase(c, pin, secs[0], now, cfg);
      assert forall x :: x in secs <==> x == secs[0] || x in secs[1..];
      PhaseAfter(d, pin, secs[1..], now, cfg);
      RequestsHeard(d, pin, secs[1..], now, cfg);
      KeptOn(c, d, C.ParseAll(d, pin, secs[1..], now, cfg), now, cfg);
    }
  }

  lemma SelfKept(c: C.Connector, now: nat, cfg: Config)
    ensures PhaseKept(c, c, now, cfg)
  {
  }

  /** How the phase goes on when the ready jobs have run. */
  function PhaseRun(c: C.Connector): C.Status {
    if C.TEAR_ECHO in c.jobs then C.Finished
    else if C.LINK_ECHO in c.jobs && c.status == C.Accepting then C.Linked
    else c.status
  }

  /** What a pass with room for all jobs has sent, and what it has made of the connector. */
  ghost predicate AllSent(c: C.Connector, b: C.Burst, now: nat) {
    && (forall k :: k in C.Ready(c, now) ==> C.JobSection(c, k, now) in b.sections)
    && AllDone(c, b.connector)
  }

  ghost predicate AllDone(c: C.Connector, e: C.Connector) {
    && e.status == PhaseRun(c)
    && c.posted <= e.posted
    && (C.TEAR_ECHO in c.jobs && c.onShutdown != C.NoHandler ==> C.Post(c.onShutdown, Success) in e.posted)
    && (C.TEAR_ECHO !in c.jobs ==> e.onShutdown == c.onShutdown && C.TEAR_ECHO !in e.jobs)
    && (C.LINK_ECHO in c.jobs && c.status == C.Accepting ==> C.Post(c.onConnect, Success) in e.posted)
    && (e.status == c.status ==> e.dead == c.dead && e.onConnect == c.onConnect)
    && e.seen == c.seen && e.local == c.local && e.remote == c.remote
  }

  lemma JobDone(c: C.Connector, k: nat, now: nat, repeat: nat, e: C.Connector)
    requires k in c.jobs && 2 <= k <= 7 && AllDone(C.AfterJob(c, k, now, repeat), e)
    requires C.LINK_ECHO in c.jobs ==> k <= C.LINK_ECHO
    ensures AllDone(c, e)
  {
    PostsStay(C.AfterJob(c, k, now, repeat).posted, e.posted);
    assert forall p: C.Post :: p in c.posted + [p];
  }

  lemma JobSent(c: C.Connector, k: nat, now: nat, repeat: nat, b: C.Burst)
    requires C.JobsOk(c) && k in C.Ready(c, now) && forall j :: j in C.Ready(c, now) ==> k <= j
    requires AllSent(C.AfterJob(c, k, now, repeat), b, now)
    requires C.Ready(C.AfterJob(c, k, now, repeat), now) == C.Ready(c, now) - {k}
    ensures AllSent(c, b.(sections := [C.JobSection(c, k, now)] + b.sections), now)
  {
    var d := C.AfterJob(c, k, now, repeat);
    var all := [C.JobSection(c, k, now)] + b.sections;
    assert forall x :: x in all <==> x == C.JobSection(c, k, now) || x in b.sections;
    assert C.LINK_ECHO in c.jobs ==> C.LINK_ECHO in C.Ready(c, now);
    JobDone(c, k, now, repeat, b.connector);
    hide AllDone;
    forall j | j in C.Ready(c, now) ensures C.JobSection(c, j, now) in all {
      if j != k {
        assert j in C.Ready(d, now);
        assert C.JobSection(d, j, now) == C.JobSection(c, j, now);
      }
    }
  }

  lemma PostsStay(a: seq<C.Post>, b: seq<C.Post>)
    requires a <= b
    ensures forall p :: p in a ==> p in b
  {
    forall p | p in a ensures p in b {
      var i :| 0 <= i < |a| && a[i] == p;
      assert b[i] == p;
    }
  }

  lemma NothingToRun(c: C.Connector, now: nat)
    requires C.Ready(c, now) == {}
    ensures forall room :: AllSent(c, C.Burst(c, [], room), now)
  {
    assert C.TEAR_ECHO in c.jobs ==> C.TEAR_ECHO in C.Ready(c, now);
    assert C.LINK_ECHO in c.jobs ==> C.LINK_ECHO in C.Ready(c, now);
  }

  lemma {:induction false} JobsRun(c: C.Connector, room: nat, now: nat, repeat: nat)
    requires C.JobsOk(c) && CL.Need(C.Ready(c, now)) <= room
    ensures AllSent(c, C.RunJobs(c, room, now, repeat), now)
    decreases |C.Ready(c, now)|
  {
    hide C.Ready, CL.Need, C.AfterJob, C.JobSection, C.JobsOk, AllSent;
    if C.Ready(c, now) == {} {
      NothingToRun(c, now);
    } else {
      var k := MinOf(C.Ready(c, now));
      CL.ReadyJob(c, k, now, repeat);
      CL.NeedSplits(c, k, now);
      var d := C.AfterJob(c, k, now, repeat);
      var left := room - SizeOf(C.JobSection(c, k, now));
      JobsRun(d, left, now, repeat);
      JobSent(c, k, now, repeat, C.RunJobs(d, left, now, repeat));
    }
  }

  /**
   * Every request is echoed by the next packet, whatever the phase: a link by a link echo, a tear by a tear echo, a ping by
   * a ping echo.
   */
  lemma RequestsAreEchoed(c: C.Connector, pin: nat, secs: seq<Section>, heard: nat, room: nat, now: nat, repeat: nat, cfg: Config)
    requires C.JobsOk(c) && room >= 40
    ensures var e := C.Parse(c, pin, secs, heard, cfg);
            && C.JobsOk(e)
            && var sent := C.RunJobs(e, room, now, repeat).sections;
            && (Link in secs ==> LinkEcho in sent)
            && (Tear in secs ==> TearEcho in sent)
            && ((exists v :: Ping(v) in secs) ==> exists v :: PingEcho(v) in sent)
  {
    var c1 := c.(seen := At(heard));
    var e := C.ParseAll(c1, pin, secs, heard, cfg);
    RequestsHeard(c1, pin, secs, heard, cfg);
    HeardJobs(c1, pin, secs, heard, cfg);
    CL.FortyBytesSuffice(C.Ready(e, now));
    JobsRun(e, room, now, repeat);
    EchoesReady(e, C.RunJobs(e, room, now, repeat), now);
  }

  lemma {:induction false} HeardJobs(c: C.Connector, pin: nat, secs: seq<Section>, now: nat, cfg: Config)
    requires C.JobsOk(c)
    ensures C.JobsOk(C.ParseAll(c, pin, secs, now, cfg))
    decreases |secs|
  {
    if secs != [] {
      HeardJobs(C.ParseSection(c, pin, secs[0], now, cfg), pin, secs[1..], now, cfg);
    }
  }

  lemma EchoesReady(c: C.Connector, b: C.Burst, now: nat)
    requires AllSent(c, b, now)
    ensures C.LINK_ECHO in c.jobs ==> LinkEcho in b.sections
    ensures C.TEAR_ECHO in c.jobs ==> TearEcho in b.sections
    ensures C.PING_ECHO in c.jobs ==> PingEcho(c.jobs[C.PING_ECHO]) in b.sections
    ensures C.LINK in c.jobs && c.jobs[C.LINK] < now ==> Link in b.sections
    ensures C.TEAR in c.jobs && c.jobs[C.TEAR] < now ==> Tear in b.sections
  {
    assert forall k :: k in c.jobs && (k % 2 == 1 || c.jobs[k] < now) ==> k in C.Ready(c, now);
    if C.LINK_ECHO in c.jobs { assert C.JobSection(c, C.LINK_ECHO, now) == LinkEcho; }
    if C.TEAR_ECHO in c.jobs { assert C.JobSection(c, C.TEAR_ECHO, now) == TearEcho; }
    if C.PING_ECHO in c.jobs { assert C.JobSection(c, C.PING_ECHO, now) == PingEcho(c.jobs[C.PING_ECHO]); }
    if C.LINK in c.jobs { assert C.JobSection(c, C.LINK, now) == Link; }
    if C.TEAR in c.jobs { assert C.JobSection(c, C.TEAR, now) == Tear; }
  }

  // ---------------------------------------------------------------- saying and hearing

  lemma Says(v: System, now: nat, cfg: Config) returns (w: System)
    requires Reached(v, cfg) && ChannelRuns.Ready(v, cfg) && CL.Alive(v.a.node.conn.status)
    requires Produce(v.a.node, now, 1, cfg).sections != []
    ensures Reached(w, cfg) && Follows(v, w, cfg) && w.b == v.b
    ensures w.a.node == Produce(v.a.node, now, 1, cfg).node
    ensures Packet(v.a.node.conn.local, Produce(v.a.node, now, 1, cfg).sections) in w.a.sent
  {
    hide Reached, Produce, Harmless, TrackJobs, NodeOk, Follows, Join;
    var e := Emit(now, 1, []);
    w := StepA(v, e, cfg);
    assert Legal(v, e, cfg);
    StepReached(v, e, cfg);
    FollowsStep(v, e, cfg);
    var secs := Produce(v.a.node, now, 1, cfg).sections;
    assert secs + [] == secs;
  }

  lemma Listens(v: System, p: Packet, now: nat, cfg: Config) returns (w: System)
    requires Reached(v, cfg) && ChannelRuns.Ready(v, cfg) && p in v.b.sent && C.Admits(v.a.node.conn, p.pin)
    ensures Reached(w, cfg) && Follows(v, w, cfg) && w.b == v.b && w.a.node == Feed(v.a.node, p, now, cfg)
  {
    hide Reached, Feed, TrackAll, NodeOk, Follows;
    var e := Deliver(p, now);
    w := StepA(v, e, cfg);
    StepReached(v, e, cfg);
    FollowsStep(v, e, cfg);
  }

  /** What an end in a given phase may have sent, and what it admits. */
  lemma PeerFacts(v: System, p: Packet, cfg: Config)
    requires Reached(v, cfg) && p in v.b.sent && CL.Alive(v.a.node.conn.status)
    ensures ChannelRuns.Ready(v, cfg) && C.Admits(v.a.node.conn, p.pin)
    ensures Tear in p.sections ==> v.b.trail.begun
    ensures TearEcho in p.sections ==> v.b.node.conn.status == C.Finished
  {
    hide Reached, L.LinkInv, NodeOk, CL.Book;
    ReachedInv(v, cfg);
    hide NodeOk;
    NodeReady(v, cfg);
  }

  /** Shutdowns begun, and tears to be echoed, by phase. */
  lemma PhaseFacts(v: System, cfg: Config)
    requires Reached(v, cfg)
    ensures ChannelRuns.Ready(v, cfg) && ChannelRuns.Ready(Swap(v), cfg) && C.JobsOk(v.a.node.conn)
    ensures v.a.trail.begun ==> v.a.node.conn.status == C.Shutting || v.a.node.conn.status == C.Finished
    ensures v.a.node.conn.status == C.Shutting ==> v.a.trail.begun
    ensures C.TEAR_ECHO in v.a.node.conn.jobs ==> v.b.trail.begun
  {
    hide Reached, L.LinkInv, CL.Book, PacketsKnown, S.Sound, R.FillsFit;
    ReachedInv(v, cfg);
  }

  lemma FeedConn(n: Node, p: Packet, now: nat, cfg: Config)
    requires NodeOk(n, cfg) && C.Admits(n.conn, p.pin)
    ensures Feed(n, p, now, cfg).conn == C.Parse(n.conn, p.pin, p.sections, now, cfg)
  {
    hide NodeOk, R.Parse, S.Parse, R.Error, S.Error, C.Parse;
  }

  lemma ProduceConn(n: Node, now: nat, cfg: Config)
    requires NodeOk(n, cfg) && n.conn.status != C.Finished && !C.TimedOut(n.conn, now, cfg) && cfg.packetSize >= 56
    ensures var r := Produce(n, now, 1, cfg);
            && AllSent(n.conn, C.Burst(r.node.conn, r.sections, 0), now)
  {
    hide R.Imbue, S.Imbue, C.RunJobs, AllSent;
    CL.FortyBytesSuffice(C.Ready(n.conn, now));
    JobsRun(n.conn, BodyRoom(cfg), now, 1);
    var b := C.RunJobs(n.conn, BodyRoom(cfg), now, 1);
    MoreSent(n.conn, b, Produce(n, now, 1, cfg).sections, now);
  }

  lemma MoreSent(c: C.Connector, b: C.Burst, secs: seq<Section>, now: nat)
    requires AllSent(c, b, now) && b.sections <= secs
    ensures AllSent(c, C.Burst(b.connector, secs, 0), now)
  {
    hide AllDone;
    forall x | x in b.sections ensures x in secs {
      var i :| 0 <= i < |b.sections| && b.sections[i] == x;
      assert secs[i] == x;
    }
  }

  lemma Armed(v: System, cfg: Config)
    requires Reached(v, cfg)
    ensures v.a.node.conn.status == C.Connecting ==> C.LINK in v.a.node.conn.jobs
    ensures v.a.node.conn.status == C.Shutting ==> C.TEAR in v.a.node.conn.jobs
  {
    hide Reached;
    PhasesAreArmed(v, cfg);
  }

  /** End `a` sends its ready jobs, and the other end hears them. */
  lemma Tells(v: System, now: nat, cfg: Config) returns (w: System, secs: seq<Section>)
    requires Reached(v, cfg) && CL.Alive(v.a.node.conn.status) && CL.Alive(v.b.node.conn.status) && cfg.packetSize >= 56
    requires !C.TimedOut(v.a.node.conn, now, cfg) && C.Ready(v.a.node.conn, now) != {}
    ensures Reached(w, cfg) && Follows(v, w, cfg)
    ensures AllSent(v.a.node.conn, C.Burst(w.a.node.conn, secs, 0), now)
    ensures exists pin :: w.b.node.conn == C.Parse(v.b.node.conn, pin, secs, now, cfg)
    ensures Tear in secs ==> w.a.trail.begun
    ensures TearEcho in secs ==> w.a.node.conn.status == C.Finished
  {
    hide Reached, Produce, Feed, NodeOk, Follows, AllSent, C.Parse, C.TimedOut, C.Ready;
    PhaseFacts(v, cfg);
    ProduceConn(v.a.node, now, cfg);
    secs := Produce(v.a.node, now, 1, cfg).sections;
    SomethingSent(v.a.node.conn, C.Burst(Produce(v.a.node, now, 1, cfg).node.conn, secs, 0), now);
    var w1 := Says(v, now, cfg);
    var p := Packet(v.a.node.conn.local, secs);
    SwapReached(w1, cfg);
    PeerFacts(Swap(w1), p, cfg);
    var y := Listens(Swap(w1), p, now, cfg);
    FeedConn(w1.b.node, p, now, cfg);
    SwapReached(y, cfg);
    FollowsSwapped(Swap(w1), y, cfg);
    FollowsOn(v, w1, Swap(y), cfg);
    w := Swap(y);
  }

  lemma SomethingSent(c: C.Connector, b: C.Burst, now: nat)
    requires AllSent(c, b, now) && C.Ready(c, now) != {}
    ensures b.sections != []
  {
    hide AllDone;
    var k :| k in C.Ready(c, now);
    assert C.JobSection(c, k, now) in b.sections;
  }

  /** A connector that has heard a packet of a peer that is not leaving. */
  lemma HeardOf(c: C.Connector, pin: nat, secs: seq<Section>, now: nat, cfg: Config)
    requires c.status == C.Connecting ==> Tear !in secs
    ensures var e := C.Parse(c, pin, secs, now, cfg);
            Asked(c, e, secs) && c.posted <= e.posted && e.seen == At(now)
            && e.status == PhaseHeard(c.status, secs) && PhaseKept(c, e, now, cfg)
  {
    var c1 := c.(seen := At(now));
    RequestsHeard(c1, pin, secs, now, cfg);
    PhaseAfter(c1, pin, secs, now, cfg);
  }

  lemma LinkReady(c: C.Connector, k: nat, now: nat)
    requires k in c.jobs && (k % 2 == 1 || c.jobs[k] < now)
    ensures C.Ready(c, now) != {}
  {
    assert k in C.Ready(c, now);
  }

  /**
   * A caller whose link is due and a listener that accepts, or is linked already because its answer was lost: some run goes
   * on until both are linked, and both have told their callers so.
   */
  lemma ConnectionIsMade(v: System, now: nat, cfg: Config) returns (w: System)
    requires Reached(v, cfg) && cfg.packetSize >= 56
    requires v.a.node.conn.status == C.Connecting && (v.b.node.conn.status == C.Accepting || v.b.node.conn.status == C.Linked)
    requires !C.TimedOut(v.a.node.conn, now, cfg) && !v.b.node.conn.dead.Before(now)
    requires C.LINK in v.a.node.conn.jobs ==> v.a.node.conn.jobs[C.LINK] < now
    ensures Reached(w, cfg) && Follows(v, w, cfg)
    ensures w.a.node.conn.status == w.b.node.conn.status == C.Linked
    ensures C.Post(v.a.node.conn.onConnect, Success) in w.a.node.conn.posted
    ensures v.b.node.conn.status == C.Accepting ==> C.Post(v.b.node.conn.onConnect, Success) in w.b.node.conn.posted
  {
    hide Reached, Follows, C.Parse, C.Ready;
    Armed(v, cfg);
    SwapReached(v, cfg);
    PhaseFacts(v, cfg);
    PhaseFacts(Swap(v), cfg);
    LinkReady(v.a.node.conn, C.LINK, now);
    var u, asking := Tells(v, now, cfg);
    EchoesReady(v.a.node.conn, C.Burst(u.a.node.conn, asking, 0), now);
    PhaseFacts(u, cfg);
    var pin :| u.b.node.conn == C.Parse(v.b.node.conn, pin, asking, now, cfg);
    HeardOf(v.b.node.conn, pin, asking, now, cfg);
    LinkReady(u.b.node.conn, C.LINK_ECHO, now);
    SwapReached(u, cfg);
    var x, answer := Tells(Swap(u), now, cfg);
    EchoesReady(u.b.node.conn, C.Burst(x.a.node.conn, answer, 0), now);
    PhaseFacts(x, cfg);
    var from :| x.b.node.conn == C.Parse(u.a.node.conn, from, answer, now, cfg);
    HeardOf(u.a.node.conn, from, answer, now, cfg);
    SwapReached(x, cfg);
    FollowsSwapped(Swap(u), x, cfg);
    FollowsOn(v, u, Swap(x), cfg);
    w := Swap(x);
  }

  /**
   * An end that leaves, and whose tear is due, and a peer that is linked or leaving too: some run goes on until both are
   * finished, and every `shutdown` handler kept at either has been told of success.
   */
  lemma ShutdownIsAnswered(v: System, now: nat, cfg: Config) returns (w: System)
    requires Reached(v, cfg) && cfg.packetSize >= 56
    requires v.a.node.conn.status == C.Shutting && v.b.node.conn.status in {C.Linked, C.Shutting, C.Tearing}
    requires !C.TimedOut(v.a.node.conn, now, cfg) && !v.b.node.conn.dead.Before(now)
    requires C.TEAR in v.a.node.conn.jobs ==> v.a.node.conn.jobs[C.TEAR] < now
    ensures Reached(w, cfg) && Follows(v, w, cfg)
    ensures w.a.node.conn.status == w.b.node.conn.status == C.Finished
    ensures C.Post(v.a.node.conn.onShutdown, Success) in w.a.node.conn.posted
    ensures v.b.node.conn.onShutdown != C.NoHandler ==> C.Post(v.b.node.conn.onShutdown, Success) in w.b.node.conn.posted
  {
    hide Reached, Follows, C.Parse, C.Ready;
    Armed(v, cfg);
    PhasesHold(v, cfg);
    SwapReached(v, cfg);
    PhaseFacts(v, cfg);
    PhaseFacts(Swap(v), cfg);
    LinkReady(v.a.node.conn, C.TEAR, now);
    var u, asking := Tells(v, now, cfg);
    EchoesReady(v.a.node.conn, C.Burst(u.a.node.conn, asking, 0), now);
    var pin :| u.b.node.conn == C.Parse(v.b.node.conn, pin, asking, now, cfg);
    HeardOf(v.b.node.conn, pin, asking, now, cfg);
    if C.TEAR_ECHO in v.a.node.conn.jobs {
      w := u;
    } else {
      LinkReady(u.b.node.conn, C.TEAR_ECHO, now);
      SwapReached(u, cfg);
      var x, answer := Tells(Swap(u), now, cfg);
      EchoesReady(u.b.node.conn, C.Burst(x.a.node.conn, answer, 0), now);
      var from :| x.b.node.conn == C.Parse(u.a.node.conn, from, answer, now, cfg);
      HeardOf(u.a.node.conn, from, answer, now, cfg);
      SwapReached(x, cfg);
      FollowsSwapped(Swap(u), x, cfg);
      FollowsOn(v, u, Swap(x), cfg);
      w := Swap(x);
    }
  }

  lemma PhasesHold(v: System, cfg: Config)
    requires Reached(v, cfg)
    ensures v.a.node.conn.status == C.Shutting ==> v.a.node.conn.onShutdown != C.NoHandler
  {
    hide Reached;
    PhasesAreArmed(v, cfg);
  }
}
