/** The connection state machine of a UDP channel, as functions on its state. */
module Connecting {
  import opened Containers
  import opened Protocol

  datatype Status = Neither | Initial | Accepting | Connecting | Linked | Shutting | Tearing | Finished {
    function Rank(): nat {
      match this
      case Neither => 0
      case Initial => 1
      case Accepting => 2
      case Connecting => 3
      case Linked => 4
      case Shutting => 5
      case Tearing => 6
      case Finished => 7
    }
  }

  /** A handler slot; handlers are named by numbers. */
  datatype Handler = NoHandler | Handler(id: nat)

  /** A completion handed to whatever was in the slot. */
  datatype Post = Post(handler: Handler, code: Code)

  /** Jobs are keyed by the flags of the section they send; an odd key is an echo. */
  const LINK: nat := 2
  const LINK_ECHO: nat := 3
  const TEAR: nat := 4
  const TEAR_ECHO: nat := 5
  const PING: nat := 6
  const PING_ECHO: nat := 7

  /** Five seconds in microseconds: the grace added to the ping timeout. */
  const GRACE: nat := 5000000

  datatype Connector = Connector(
    status: Status,
    local: nat,
    remote: nat,
    jobs: map<nat, nat>,
    seen: Time,
    dead: Time,
    onConnect: Handler,
    onShutdown: Handler,
    posted: seq<Post>,
    alarms: seq<Code>)

  /** A connector after `open`. */
  function InitConnector(): Connector {
    Connector(Initial, 0, 0, map[], Never, Never, NoHandler, NoHandler, [], [])
  }

  function PostConnect(c: Connector, code: Code): Connector {
    c.(posted := c.posted + [Post(c.onConnect, code)], onConnect := NoHandler)
  }

  function PostShutdown(c: Connector, code: Code): Connector {
    c.(posted := c.posted + [Post(c.onShutdown, code)], onShutdown := NoHandler)
  }

  function Error(c: Connector, code: Code): Connector {
    var c1 := if c.onConnect != NoHandler then PostConnect(c, code) else c;
    var c2 := if c1.onShutdown != NoHandler then PostShutdown(c1, code) else c1;
    c2.(local := 0, remote := 0, seen := Never, dead := Never, jobs := map[], status := Finished)
  }

  /** The pin check of `valid`; packets with another signature, version or no body are dropped before this model. */
  predicate Admits(c: Connector, pin: nat) {
    c.local != 0 && (c.remote == 0 || c.remote == pin)
  }

  // ---------------------------------------------------------------- parse

  function OnLink(c: Connector, pin: nat): Connector {
    var c1 := c.(jobs := Emplace(c.jobs, LINK_ECHO, 0));
    if c.status == Accepting then c1.(remote := pin) else c1
  }

  function OnLinkEcho(c: Connector, pin: nat): Connector {
    if c.status == Connecting then
      PostConnect(c.(status := Linked, dead := Never, remote := pin,
                     jobs := Emplace(c.jobs - {LINK}, PING, 0)), Success)
    else c
  }

  function OnTear(c: Connector, now: nat, cfg: Config): Connector {
    var c1 := c.(jobs := Emplace(c.jobs, TEAR_ECHO, 0));
    if c.status == Linked then c1.(status := Tearing, dead := At(now + cfg.shutdownTimeout)) else c1
  }

  function OnTearEcho(c: Connector): Connector {
    if c.status == Shutting then
      PostShutdown(c.(status := Finished, jobs := c.jobs - {TEAR}), Success)
    else c
  }

  function ParseSection(c: Connector, pin: nat, x: Section, now: nat, cfg: Config): Connector {
    match x
    case Link => OnLink(c, pin)
    case LinkEcho => OnLinkEcho(c, pin)
    case Tear => OnTear(c, now, cfg)
    case TearEcho => OnTearEcho(c)
    case Ping(stamp) => c.(jobs := Emplace(c.jobs, PING_ECHO, stamp))
    case PingEcho(_) => c.(jobs := Emplace(c.jobs - {PING}, PING, now + cfg.pingTimeout))
    case _ => c
  }

  function ParseAll(c: Connector, pin: nat, secs: seq<Section>, now: nat, cfg: Config): Connector
    decreases |secs|
  {
    if secs == [] then c else ParseAll(ParseSection(c, pin, secs[0], now, cfg), pin, secs[1..], now, cfg)
  }

  function Parse(c: Connector, pin: nat, secs: seq<Section>, now: nat, cfg: Config): Connector {
    ParseAll(c.(seen := At(now)), pin, secs, now, cfg)
  }

  // ---------------------------------------------------------------- imbue

  datatype Burst = Burst(connector: Connector, sections: seq<Section>, room: nat)

  /** The jobs that send now: every echo, and every other job whose time has come. */
  function Ready(c: Connector, now: nat): set<nat> {
    set k | k in c.jobs && (k % 2 == 1 || c.jobs[k] < now)
  }

  /** The section a job sends. */
  function JobSection(c: Connector, k: nat, now: nat): Section
    requires k in c.jobs
  {
    if k == PING then Ping(now)
    else if k == PING_ECHO then PingEcho(c.jobs[k])
    else if k == LINK then Link
    else if k == LINK_ECHO then LinkEcho
    else if k == TEAR then Tear
    else TearEcho
  }

  /** The state once a job has sent its section. */
  function AfterJob(c: Connector, k: nat, now: nat, repeat: nat): Connector
    requires k in c.jobs
  {
    if k == LINK_ECHO then
      var c1 := c.(jobs := c.jobs - {LINK_ECHO});
      if c.status == Accepting then PostConnect(c1.(status := Linked, dead := Never), Success) else c1
    else if k == PING_ECHO then
      c.(jobs := c.jobs - {PING_ECHO})
    else if k == TEAR_ECHO then
      var c1 := c.(jobs := c.jobs - {TEAR_ECHO}, status := Finished);
      if c.onShutdown != NoHandler then PostShutdown(c1, Success) else c1
    else
      c.(jobs := c.jobs[k := now + repeat])
  }

  lemma ReadyShrinks(c: Connector, k: nat, now: nat, repeat: nat)
    requires k in Ready(c, now) && 2 <= k <= 7
    ensures Ready(AfterJob(c, k, now, repeat), now) == Ready(c, now) - {k}
  {
  }

  predicate JobsOk(c: Connector) {
    forall k :: k in c.jobs ==> 2 <= k <= 7
  }

  function RunJobs(c: Connector, room: nat, now: nat, repeat: nat): Burst
    requires JobsOk(c)
    decreases |Ready(c, now)|
  {
    if room < SECTION_HEADER || Ready(c, now) == {} then Burst(c, [], room)
    else
      var k := MinOf(Ready(c, now));
      var x := JobSection(c, k, now);
      ReadyShrinks(c, k, now, repeat);
      // a section that does not fit would raise an exception in the original; FitsAlways excludes it
      var left := if SizeOf(x) <= room then room - SizeOf(x) else 0;
      var b := RunJobs(AfterJob(c, k, now, repeat), left, now, repeat);
      b.(sections := [x] + b.sections)
  }

  /** The peer has been silent for too long, or the deadline of the current phase has passed. */
  predicate TimedOut(c: Connector, now: nat, cfg: Config) {
    || (c.status == Linked && c.seen.At? && c.seen.t + cfg.pingTimeout + GRACE < now)
    || c.dead.Before(now)
  }

  function Imbue(c: Connector, room: nat, now: nat, repeat: nat, cfg: Config): Burst
    requires JobsOk(c)
  {
    if TimedOut(c, now, cfg) then Burst(c.(alarms := c.alarms + [Interrupted]), [], room)
    else RunJobs(c, room, now, repeat)
  }

  // ---------------------------------------------------------------- calls

  function Refuse(c: Connector, id: nat, code: Code): Connector {
    c.(posted := c.posted + [Post(Handler(id), code)])
  }

  function Connect(c: Connector, id: nat, pin: nat, now: nat, cfg: Config): Connector {
    if c.status != Initial then
      Refuse(c, id, if c.status == Connecting then InProgress else if c.status == Linked then AlreadyConnected else NoPermission)
    else
      c.(local := pin, onConnect := Handler(id), dead := At(now + cfg.connectTimeout),
         status := Connecting, jobs := Emplace(c.jobs, LINK, 0))
  }

  function Accept(c: Connector, id: nat, pin: nat, now: nat, cfg: Config): Connector {
    if c.status != Initial then
      Refuse(c, id, if c.status == Accepting then InProgress else if c.status == Linked then AlreadyConnected else NoPermission)
    else
      c.(local := pin, onConnect := Handler(id), dead := At(now + cfg.acceptTimeout), status := Accepting)
  }

  function Shutdown(c: Connector, id: nat, now: nat, cfg: Config): Connector {
    if c.status == Finished then Refuse(c, id, Success)
    else if c.status != Linked && c.status != Tearing then
      Refuse(c, id, if c.status == Shutting then InProgress else NotConnected)
    else
      var c1 := c.(onShutdown := Handler(id), dead := At(now + cfg.shutdownTimeout));
      if c.status != Tearing then c1.(status := Shutting, jobs := Emplace(c.jobs, TEAR, 0)) else c1
  }

  predicate Deferred(c: Connector) {
    c.jobs != map[]
  }
}
