/** What every step of the connection state machine keeps, whatever the peer sends. */
module ConnectorLaws {
  import opened Containers
  import opened Protocol
  import opened Connecting

  /** The connection phases in which packets are exchanged. */
  predicate Alive(s: Status) {
    s == Accepting || s == Connecting || s == Linked || s == Shutting || s == Tearing
  }

  /** Slots and jobs match the phase, and nothing empty was ever posted. */
  ghost predicate ConnectorInv(c: Connector) {
    && JobsOk(c)
    && (Alive(c.status) ==> c.local != 0)
    && (c.status == Initial ==> c == InitConnector().(posted := c.posted))
    && (c.status == Connecting ==> LINK in c.jobs && c.onConnect != NoHandler)
    && (c.status == Accepting ==> c.onConnect != NoHandler)
    && (c.onConnect != NoHandler ==> c.status == Connecting || c.status == Accepting || c.status == Finished)
    && (c.status == Shutting ==> TEAR in c.jobs && c.onShutdown != NoHandler)
    && (c.onShutdown != NoHandler ==> c.status == Shutting || c.status == Tearing)
    && (forall i :: 0 <= i < |c.posted| ==> c.posted[i].handler != NoHandler)
  }

  lemma ParseSectionKeeps(c: Connector, pin: nat, x: Section, now: nat, cfg: Config)
    requires ConnectorInv(c) && (Alive(c.status) || c.status == Finished)
    ensures ConnectorInv(ParseSection(c, pin, x, now, cfg))
    ensures c.status.Rank() <= ParseSection(c, pin, x, now, cfg).status.Rank()
  {
  }

  lemma {:induction false} ParseAllKeeps(c: Connector, pin: nat, secs: seq<Section>, now: nat, cfg: Config)
    requires ConnectorInv(c) && (Alive(c.status) || c.status == Finished)
    ensures ConnectorInv(ParseAll(c, pin, secs, now, cfg))
    ensures c.status.Rank() <= ParseAll(c, pin, secs, now, cfg).status.Rank()
    decreases |secs|
  {
    if secs != [] {
      ParseSectionKeeps(c, pin, secs[0], now, cfg);
      ParseAllKeeps(ParseSection(c, pin, secs[0], now, cfg), pin, secs[1..], now, cfg);
    }
  }

  lemma AfterJobKeeps(c: Connector, k: nat, now: nat, repeat: nat)
    requires ConnectorInv(c) && k in c.jobs && (Alive(c.status) || c.status == Finished)
    ensures ConnectorInv(AfterJob(c, k, now, repeat))
    ensures c.status.Rank() <= AfterJob(c, k, now, repeat).status.Rank()
  {
  }

  lemma {:induction false} RunJobsKeeps(c: Connector, room: nat, now: nat, repeat: nat)
    requires ConnectorInv(c) && (Alive(c.status) || c.status == Finished)
    ensures ConnectorInv(RunJobs(c, room, now, repeat).connector)
    ensures c.status.Rank() <= RunJobs(c, room, now, repeat).connector.status.Rank()
    decreases |Ready(c, now)|
  {
    if !(room < SECTION_HEADER || Ready(c, now) == {}) {
      var k := MinOf(Ready(c, now));
      ReadyShrinks(c, k, now, repeat);
      AfterJobKeeps(c, k, now, repeat);
      var x := JobSection(c, k, now);
      RunJobsKeeps(AfterJob(c, k, now, repeat), if SizeOf(x) <= room then room - SizeOf(x) else 0, now, repeat);
    }
  }

  // ---------------------------------------------------------------- the packet always has room

  /** The bytes the ready jobs need. */
  function Need(ready: set<nat>): nat {
    (if LINK in ready then 4 else 0) + (if LINK_ECHO in ready then 4 else 0)
    + (if TEAR in ready then 4 else 0) + (if TEAR_ECHO in ready then 4 else 0)
    + (if PING in ready then 12 else 0) + (if PING_ECHO in ready then 12 else 0)
  }

  lemma NeedSplits(c: Connector, k: nat, now: nat)
    requires JobsOk(c) && k in Ready(c, now)
    ensures Need(Ready(c, now)) == Need(Ready(c, now) - {k}) + SizeOf(JobSection(c, k, now))
  {
  }

  /** A ready job sends a section of the connector's own kind and is not ready afterwards. */
  lemma ReadyJob(c: Connector, k: nat, now: nat, repeat: nat)
    requires JobsOk(c) && k in Ready(c, now)
    ensures k in c.jobs && 2 <= k <= 7
    ensures var x := JobSection(c, k, now); !x.Move? && !x.MoveEcho? && !x.Edge? && !x.EdgeEcho?
    ensures JobsOk(AfterJob(c, k, now, repeat))
    ensures Ready(AfterJob(c, k, now, repeat), now) == Ready(c, now) - {k}
  {
    ReadyShrinks(c, k, now, repeat);
  }

  /** With room for the ready jobs, every one of them is sent and no section is ever cut short. */
  lemma {:induction false} FitsAlways(c: Connector, room: nat, now: nat, repeat: nat)
    requires JobsOk(c) && Need(Ready(c, now)) <= room
    ensures var b := RunJobs(c, room, now, repeat);
            && b.room + SizeOfAll(b.sections) == room
            && Ready(b.connector, now) == {}
            && |b.sections| == |Ready(c, now)|
            && (forall x :: x in b.sections ==> !x.Move? && !x.MoveEcho? && !x.Edge? && !x.EdgeEcho?)
    decreases |Ready(c, now)|
  {
    hide Ready, Need, AfterJob, JobSection, JobsOk;
    if Ready(c, now) != {} {
      var k := MinOf(Ready(c, now));
      ReadyJob(c, k, now, repeat);
      NeedSplits(c, k, now);
      var x := JobSection(c, k, now);
      var t := AfterJob(c, k, now, repeat);
      FitsAlways(t, room - SizeOf(x), now, repeat);
      var b := RunJobs(t, room - SizeOf(x), now, repeat);
      assert ([x] + b.sections)[1..] == b.sections;
    }
  }

  /** A connector sends nothing but its own kind of sections. */
  lemma {:induction false} JobSections(c: Connector, room: nat, now: nat, repeat: nat)
    requires JobsOk(c)
    ensures forall x :: x in RunJobs(c, room, now, repeat).sections ==>
              !x.Move? && !x.MoveEcho? && !x.Edge? && !x.EdgeEcho?
    decreases |Ready(c, now)|
  {
    hide AfterJob;
    if !(room < SECTION_HEADER || Ready(c, now) == {}) {
      var k := MinOf(Ready(c, now));
      var x := JobSection(c, k, now);
      ReadyShrinks(c, k, now, repeat);
      JobsShrink(c, k, now, repeat);
      JobSections(AfterJob(c, k, now, repeat), if SizeOf(x) <= room then room - SizeOf(x) else 0, now, repeat);
    }
  }

  /** 40 bytes of body are enough for any connector. */
  lemma FortyBytesSuffice(ready: set<nat>)
    ensures Need(ready) <= 40
  {
  }

  // ---------------------------------------------------------------- pings

  /**
   * A ping heard is echoed at the next chance with its own stamp, unless an earlier one waits to be echoed; an echo heard
   * puts the next ping off by the ping timeout, and a ping carries the time at which it is sent.
   */
  lemma PingsAreEchoed(c: Connector, pin: nat, stamp: nat, now: nat, later: nat, cfg: Config)
    ensures var e := ParseSection(c, pin, Ping(stamp), now, cfg);
            && PING_ECHO in Ready(e, later)
            && (PING_ECHO !in c.jobs ==> JobSection(e, PING_ECHO, later) == PingEcho(stamp))
            && (PING_ECHO in c.jobs ==> JobSection(e, PING_ECHO, later) == JobSection(c, PING_ECHO, later))
            && e.(jobs := c.jobs) == c && e.jobs - {PING_ECHO} == c.jobs - {PING_ECHO}
    ensures var e := ParseSection(c, pin, PingEcho(stamp), now, cfg);
            && PING in e.jobs && (PING in Ready(e, later) <==> now + cfg.pingTimeout < later)
            && JobSection(e, PING, later) == Ping(later)
            && e.(jobs := c.jobs) == c && e.jobs - {PING} == c.jobs - {PING}
  {
  }

  // ---------------------------------------------------------------- conservation of handlers

  function Held(h: Handler): multiset<nat> {
    if h == NoHandler then multiset{} else multiset{h.id}
  }

  function PostedIds(posted: seq<Post>): multiset<nat> {
    if posted == [] then multiset{} else PostedIds(posted[..|posted| - 1]) + Held(posted[|posted| - 1].handler)
  }

  /** Every handler the connector has posted or still keeps. */
  function Book(c: Connector): multiset<nat> {
    PostedIds(c.posted) + Held(c.onConnect) + Held(c.onShutdown)
  }

  lemma PostedSnoc(posted: seq<Post>, p: Post)
    ensures PostedIds(posted + [p]) == PostedIds(posted) + Held(p.handler)
  {
    assert (posted + [p])[..|posted|] == posted;
  }

  lemma PostConnectBook(c: Connector, code: Code)
    ensures Book(PostConnect(c, code)) == Book(c)
  {
    PostedSnoc(c.posted, Post(c.onConnect, code));
  }

  lemma PostShutdownBook(c: Connector, code: Code)
    ensures Book(PostShutdown(c, code)) == Book(c)
  {
    PostedSnoc(c.posted, Post(c.onShutdown, code));
  }

  lemma ParseSectionBook(c: Connector, pin: nat, x: Section, now: nat, cfg: Config)
    ensures Book(ParseSection(c, pin, x, now, cfg)) == Book(c)
  {
    hide PostedIds, Held;
    if x.LinkEcho? && c.status == Connecting {
      PostConnectBook(c.(status := Linked, dead := Never, remote := pin,
                         jobs := Emplace(c.jobs - {LINK}, PING, 0)), Success);
    } else if x.TearEcho? && c.status == Shutting {
      PostShutdownBook(c.(status := Finished, jobs := c.jobs - {TEAR}), Success);
    }
  }

  lemma {:induction false} ParseAllBook(c: Connector, pin: nat, secs: seq<Section>, now: nat, cfg: Config)
    ensures Book(ParseAll(c, pin, secs, now, cfg)) == Book(c)
    decreases |secs|
  {
    if secs != [] {
      ParseSectionBook(c, pin, secs[0], now, cfg);
      ParseAllBook(ParseSection(c, pin, secs[0], now, cfg), pin, secs[1..], now, cfg);
    }
  }

  lemma JobsShrink(c: Connector, k: nat, now: nat, repeat: nat)
    requires JobsOk(c) && k in c.jobs
    ensures JobsOk(AfterJob(c, k, now, repeat))
  {
  }

  lemma AfterJobBook(c: Connector, k: nat, now: nat, repeat: nat)
    requires k in c.jobs
    ensures Book(AfterJob(c, k, now, repeat)) == Book(c)
  {
    hide PostedIds, Held;
    if k == LINK_ECHO && c.status == Accepting {
      PostConnectBook(c.(jobs := c.jobs - {LINK_ECHO}, status := Linked, dead := Never), Success);
    } else if k == TEAR_ECHO && c.onShutdown != NoHandler {
      PostShutdownBook(c.(jobs := c.jobs - {TEAR_ECHO}, status := Finished), Success);
    }
  }

  lemma {:induction false} RunJobsBook(c: Connector, room: nat, now: nat, repeat: nat)
    requires JobsOk(c)
    ensures Book(RunJobs(c, room, now, repeat).connector) == Book(c)
    decreases |Ready(c, now)|
  {
    hide Book, PostedIds, Held, AfterJob;
    if !(room < SECTION_HEADER || Ready(c, now) == {}) {
      var k := MinOf(Ready(c, now));
      var x := JobSection(c, k, now);
      ReadyShrinks(c, k, now, repeat);
      JobsShrink(c, k, now, repeat);
      AfterJobBook(c, k, now, repeat);
      RunJobsBook(AfterJob(c, k, now, repeat), if SizeOf(x) <= room then room - SizeOf(x) else 0, now, repeat);
    }
  }

  lemma ImbueBook(c: Connector, room: nat, now: nat, repeat: nat, cfg: Config)
    requires JobsOk(c)
    ensures Book(Imbue(c, room, now, repeat, cfg).connector) == Book(c)
  {
    RunJobsBook(c, room, now, repeat);
  }

  /** The handler a second `shutdown` pushes out of its slot. */
  function Replaced(c: Connector): multiset<nat> {
    if c.status == Linked || c.status == Tearing then Held(c.onShutdown) else multiset{}
  }

  lemma RefuseBook(c: Connector, id: nat, code: Code)
    ensures Book(Refuse(c, id, code)) == Book(c) + multiset{id}
  {
    PostedSnoc(c.posted, Post(Handler(id), code));
  }

  lemma ConnectBook(c: Connector, id: nat, pin: nat, now: nat, cfg: Config)
    requires ConnectorInv(c)
    ensures Book(Connect(c, id, pin, now, cfg)) == Book(c) + multiset{id}
    ensures Book(Accept(c, id, pin, now, cfg)) == Book(c) + multiset{id}
  {
    hide PostedIds;
    forall code { RefuseBook(c, id, code); }
  }

  /** A shutdown handler is kept, posted, or pushed out by a later one. */
  lemma ShutdownBook(c: Connector, id: nat, now: nat, cfg: Config)
    requires ConnectorInv(c)
    ensures Book(Shutdown(c, id, now, cfg)) + Replaced(c) == Book(c) + multiset{id}
  {
    hide PostedIds;
    forall code { RefuseBook(c, id, code); }
  }

  /** `error` empties both slots into the executor: afterwards the book holds posted handlers only. */
  lemma ErrorBook(c: Connector, code: Code)
    ensures Book(Error(c, code)) == Book(c)
    ensures Book(Error(c, code)) == PostedIds(Error(c, code).posted)
  {
    var c1 := if c.onConnect != NoHandler then PostConnect(c, code) else c;
    PostConnectBook(c, code);
    PostShutdownBook(c1, code);
  }

  /** A handler told the code, if there is one in the slot. */
  function Answer(h: Handler, code: Code): seq<Post> {
    if h == NoHandler then [] else [Post(h, code)]
  }

  /** `error` answers the kept handlers with the code given, `connect` before `shutdown`, and keeps none. */
  lemma ErrorPosts(c: Connector, code: Code)
    ensures var d := Error(c, code);
            && d.posted == c.posted + Answer(c.onConnect, code) + Answer(c.onShutdown, code)
            && d.onConnect == d.onShutdown == NoHandler && d.status == Finished
  {
    assert c.posted + [] == c.posted;
  }

  lemma CallsKeep(c: Connector, id: nat, pin: nat, now: nat, cfg: Config)
    requires ConnectorInv(c) && pin != 0 && c.status != Neither
    ensures ConnectorInv(Connect(c, id, pin, now, cfg)) && c.status.Rank() <= Connect(c, id, pin, now, cfg).status.Rank()
    ensures ConnectorInv(Accept(c, id, pin, now, cfg)) && c.status.Rank() <= Accept(c, id, pin, now, cfg).status.Rank()
    ensures ConnectorInv(Shutdown(c, id, now, cfg)) && c.status.Rank() <= Shutdown(c, id, now, cfg).status.Rank()
  {
  }

  lemma ErrorKeeps(c: Connector, code: Code)
    requires ConnectorInv(c)
    ensures ConnectorInv(Error(c, code))
  {
  }

  // ---------------------------------------------------------------- the remote pin

  /** Once a peer is known, an admitted packet never changes it. */
  lemma {:induction false} RemoteSticks(c: Connector, pin: nat, secs: seq<Section>, now: nat, cfg: Config)
    requires c.remote == pin
    ensures ParseAll(c, pin, secs, now, cfg).remote == pin
    decreases |secs|
  {
    if secs != [] {
      RemoteSticks(ParseSection(c, pin, secs[0], now, cfg), pin, secs[1..], now, cfg);
    }
  }
}
