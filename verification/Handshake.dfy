/**
 * The agreement between a calling and a listening connector whose sections travel over a network
 * that may drop, repeat and reorder them.
 */
module Handshake {
  import opened Containers
  import opened Protocol
  import opened Connecting
  import opened ConnectorLaws

  datatype Role = Caller | Listener

  /**
   * What a run remembers of one side: its pin, whether it ever was linked, whether it ever began a
   * shutdown, and whether such a shutdown was completed by the peer's tear echo.
   */
  datatype Trail = Trail(role: Role, pin: nat, linked: bool, begun: bool, echoed: bool)

  /** The phases of an established connection. */
  predicate Joined(s: Status) {
    s == Linked || s == Shutting || s == Tearing
  }

  function Track(t: Trail, c: Connector): Trail {
    t.(linked := t.linked || Joined(c.status), begun := t.begun || c.status == Shutting)
  }

  /** What side (c, t) may rely on about its peer (d, u); `mine` and `theirs` are the sections each ever sent. */
  ghost predicate Agree(c: Connector, t: Trail, d: Connector, u: Trail, mine: set<Section>, theirs: set<Section>) {
    && PinsAgree(c, t, u, mine)
    && LinksAgree(c, t, u, mine)
    && TearsAgree(c, t, d, u, mine)
    && AnswersAgree(c, t, mine)
  }

  ghost predicate PinsAgree(c: Connector, t: Trail, u: Trail, mine: set<Section>) {
    && (Alive(c.status) ==> c.local == t.pin != 0)
    && (t.pin == 0 ==> mine == {} && (c.status == Initial || c.status == Finished))
    && (c.status == Initial ==> t.pin == 0 && !t.linked && !t.begun && !t.echoed)
    && (c.remote == 0 || c.remote == u.pin)
    && (Joined(c.status) ==> c.remote == u.pin != 0)
  }

  ghost predicate LinksAgree(c: Connector, t: Trail, u: Trail, mine: set<Section>) {
    && (c.status == Connecting || LINK in c.jobs || Link in mine ==> t.role == Caller)
    && (c.status == Accepting || LINK_ECHO in c.jobs || LinkEcho in mine ==> t.role == Listener)
    && (c.status == Accepting && LINK_ECHO in c.jobs ==> c.remote == u.pin != 0)
    && (Joined(c.status) ==> t.linked)
    && (LINK_ECHO in c.jobs && c.status != Accepting ==> t.linked || c.status == Finished)
    && (LinkEcho in mine ==> t.linked)
    && (t.linked ==> Joined(c.status) || c.status == Finished)
    && (t.linked && t.role == Caller ==> u.linked)
  }

  ghost predicate TearsAgree(c: Connector, t: Trail, d: Connector, u: Trail, mine: set<Section>) {
    && (TEAR in c.jobs || Tear in mine || c.status == Shutting ==> t.begun)
    && (t.begun ==> t.linked && (c.status == Shutting || c.status == Finished))
    && (TEAR_ECHO in c.jobs || TearEcho in mine || c.status == Tearing ==> u.begun)
    && (TearEcho in mine ==> c.status == Finished)
    && (t.echoed ==> t.begun && d.status == Finished)
  }

  /** A finished end keeps a connect handler exactly if its own tear echo finished it before it was ever linked. */
  ghost predicate AnswersAgree(c: Connector, t: Trail, mine: set<Section>) {
    && (c.status == Finished && c.onConnect != NoHandler ==>
          c.local != 0 && !t.linked && TearEcho in mine && t.role == Caller)
    && (c.status == Finished && c.local != 0 && !t.linked ==> c.onConnect != NoHandler)
  }

  ghost predicate Pact(c: Connector, t: Trail, d: Connector, u: Trail, mine: set<Section>, theirs: set<Section>) {
    && t.role != u.role
    && ConnectorInv(c) && ConnectorInv(d)
    && Agree(c, t, d, u, mine, theirs)
    && Agree(d, u, c, t, theirs, mine)
  }

  // ---------------------------------------------------------------- parse

  function TrackSection(t: Trail, c: Connector, e: Connector): Trail {
    Track(t, e).(echoed := t.echoed || (c.status == Shutting && e.status == Finished))
  }

  lemma HearPact(c: Connector, t: Trail, d: Connector, u: Trail, mine: set<Section>, theirs: set<Section>,
                 x: Section, now: nat, cfg: Config)
    requires Pact(c, t, d, u, mine, theirs) && (Alive(c.status) || c.status == Finished) && x in theirs
    ensures var e := ParseSection(c, u.pin, x, now, cfg);
            && Pact(e, TrackSection(t, c, e), d, u, mine, theirs)
            && (Alive(e.status) || e.status == Finished)
  {
    ParseSectionKeeps(c, u.pin, x, now, cfg);
  }

  /** The trail after a packet has been worked through. */
  function TrackAll(t: Trail, c: Connector, pin: nat, secs: seq<Section>, now: nat, cfg: Config): Trail
    decreases |secs|
  {
    if secs == [] then t
    else
      var e := ParseSection(c, pin, secs[0], now, cfg);
      TrackAll(TrackSection(t, c, e), e, pin, secs[1..], now, cfg)
  }

  lemma {:induction false} HearAllPact(c: Connector, t: Trail, d: Connector, u: Trail, mine: set<Section>, theirs: set<Section>,
                                       secs: seq<Section>, now: nat, cfg: Config)
    requires Pact(c, t, d, u, mine, theirs) && (Alive(c.status) || c.status == Finished)
    requires forall x :: x in secs ==> x in theirs
    ensures var e := ParseAll(c, u.pin, secs, now, cfg);
            && Pact(e, TrackAll(t, c, u.pin, secs, now, cfg), d, u, mine, theirs)
            && c.status.Rank() <= e.status.Rank()
    decreases |secs|
  {
    hide Pact, ParseSection, TrackSection;
    if secs != [] {
      HearPact(c, t, d, u, mine, theirs, secs[0], now, cfg);
      KnownInv(c, t, d, u, mine, theirs);
      ParseSectionKeeps(c, u.pin, secs[0], now, cfg);
      var e := ParseSection(c, u.pin, secs[0], now, cfg);
      HearAllPact(e, TrackSection(t, c, e), d, u, mine, theirs, secs[1..], now, cfg);
    }
  }

  lemma KnownInv(c: Connector, t: Trail, d: Connector, u: Trail, mine: set<Section>, theirs: set<Section>)
    requires Pact(c, t, d, u, mine, theirs)
    ensures ConnectorInv(c) && JobsOk(c) && Pact(d, u, c, t, theirs, mine)
  {
  }

  // ---------------------------------------------------------------- imbue

  lemma JobPact(c: Connector, t: Trail, d: Connector, u: Trail, mine: set<Section>, theirs: set<Section>,
                k: nat, now: nat, repeat: nat)
    requires Pact(c, t, d, u, mine, theirs) && k in c.jobs
    requires Alive(c.status) || (c.status == Finished && k >= PING && t.pin != 0)
    ensures var e := AfterJob(c, k, now, repeat);
            Pact(e, Track(t, e), d, u, mine + {JobSection(c, k, now)}, theirs)
  {
    AfterJobKeeps(c, k, now, repeat);
  }

  /** The trail after the ready jobs have run. */
  function TrackJobs(t: Trail, c: Connector, room: nat, now: nat, repeat: nat): Trail
    requires JobsOk(c)
    decreases |Ready(c, now)|
  {
    if room < SECTION_HEADER || Ready(c, now) == {} then t
    else
      var k := MinOf(Ready(c, now));
      var x := JobSection(c, k, now);
      ReadyShrinks(c, k, now, repeat);
      var e := AfterJob(c, k, now, repeat);
      TrackJobs(Track(t, e), e, if SizeOf(x) <= room then room - SizeOf(x) else 0, now, repeat)
  }

  lemma JobFacts(c: Connector, t: Trail, d: Connector, u: Trail, mine: set<Section>, theirs: set<Section>,
                 k: nat, now: nat, repeat: nat)
    requires Pact(c, t, d, u, mine, theirs) && k in Ready(c, now) && k == MinOf(Ready(c, now))
    requires Alive(c.status) || (c.status == Finished && t.pin != 0 && forall j :: j in Ready(c, now) ==> j >= PING)
    ensures var e := AfterJob(c, k, now, repeat);
            && JobsOk(e)
            && Ready(e, now) == Ready(c, now) - {k}
            && t.pin != 0
            && (Alive(e.status) || (e.status == Finished && forall j :: j in Ready(e, now) ==> j >= PING))
            && c.status.Rank() <= e.status.Rank()
  {
    ReadyShrinks(c, k, now, repeat);
  }

  lemma {:induction false} JobsPact(c: Connector, t: Trail, d: Connector, u: Trail, mine: set<Section>, theirs: set<Section>,
                                    room: nat, now: nat, repeat: nat)
    requires Pact(c, t, d, u, mine, theirs)
    requires Alive(c.status) || (c.status == Finished && t.pin != 0 && forall j :: j in Ready(c, now) ==> j >= PING)
    ensures JobsOk(c)
    ensures var b := RunJobs(c, room, now, repeat);
            && Pact(b.connector, TrackJobs(t, c, room, now, repeat), d, u, Join(mine, b.sections), theirs)
            && c.status.Rank() <= b.connector.status.Rank()
    decreases |Ready(c, now)|
  {
    hide Pact, AfterJob, JobSection;
    KnownInv(c, t, d, u, mine, theirs);
    if !(room < SECTION_HEADER || Ready(c, now) == {}) {
      var k := MinOf(Ready(c, now));
      var x := JobSection(c, k, now);
      JobFacts(c, t, d, u, mine, theirs, k, now, repeat);
      JobPact(c, t, d, u, mine, theirs, k, now, repeat);
      var e := AfterJob(c, k, now, repeat);
      var left := if SizeOf(x) <= room then room - SizeOf(x) else 0;
      JobsPact(e, Track(t, e), d, u, mine + {x}, theirs, left, now, repeat);
      var b := RunJobs(e, left, now, repeat);
      assert ([x] + b.sections)[1..] == b.sections;
      assert RunJobs(c, room, now, repeat) == b.(sections := [x] + b.sections);
    }
  }

  /** Stream sections say nothing about the connection. */
  ghost predicate StreamSection(x: Section) {
    x.Move? || x.MoveEcho? || x.Edge? || x.EdgeEcho?
  }

  lemma StreamPact(c: Connector, t: Trail, d: Connector, u: Trail, mine: set<Section>, theirs: set<Section>, more: set<Section>)
    requires Pact(c, t, d, u, mine, theirs) && mine <= more && t.pin != 0
    requires forall x :: x in more && x !in mine ==> StreamSection(x)
    ensures Pact(c, t, d, u, more, theirs)
  {
  }

  // ---------------------------------------------------------------- calls and failures

  lemma ConnectPact(c: Connector, t: Trail, d: Connector, u: Trail, mine: set<Section>, theirs: set<Section>,
                    id: nat, pin: nat, now: nat, cfg: Config)
    requires Pact(c, t, d, u, mine, theirs) && c.status == Initial && pin != 0
    ensures t.role == Caller ==> Pact(Connecting.Connect(c, id, pin, now, cfg), t.(pin := pin), d, u, mine, theirs)
    ensures t.role == Listener ==> Pact(Connecting.Accept(c, id, pin, now, cfg), t.(pin := pin), d, u, mine, theirs)
  {
    CallsKeep(c, id, pin, now, cfg);
  }

  lemma ShutdownPact(c: Connector, t: Trail, d: Connector, u: Trail, mine: set<Section>, theirs: set<Section>,
                     id: nat, now: nat, cfg: Config)
    requires Pact(c, t, d, u, mine, theirs) && c.status != Neither
    ensures var e := Connecting.Shutdown(c, id, now, cfg); Pact(e, Track(t, e), d, u, mine, theirs)
  {
    CallsKeep(c, id, 1, now, cfg);
  }

  lemma ErrorPact(c: Connector, t: Trail, d: Connector, u: Trail, mine: set<Section>, theirs: set<Section>, code: Code)
    requires Pact(c, t, d, u, mine, theirs)
    ensures Pact(Connecting.Error(c, code), t, d, u, mine, theirs)
  {
    ErrorKeeps(c, code);
  }

  /** Both sides start unconnected, one to call and one to listen. */
  lemma InitPact(role: Role, peer: Role)
    requires role != peer
    ensures var t := Trail(role, 0, false, false, false);
            Pact(InitConnector(), t, InitConnector(), t.(role := peer), {}, {})
  {
  }
}
