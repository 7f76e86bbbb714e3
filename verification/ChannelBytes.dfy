/** Runs in which stale sections come from nowhere but the packet buffers. */
module ChannelBytes {
  import opened Protocol
  import K = Keystream
  import opened Channel
  import opened ChannelRuns
  import opened ChannelTheorems
  import opened OpenBodies
  import C = Connecting
  import S = Sending
  import R = Receiving
  import CL = ConnectorLaws
  import SL = SenderLaws
  import RL = ReceiverLaws
  import P = PacketCodec
  import U = UdpTransport

  /** Two ends and the packet buffers they reuse; `mine` is that of end `a`. */
  datatype Memory = Memory(sys: System, mine: seq<byte>, theirs: seq<byte>)

  function Mirror(m: Memory): Memory {
    Memory(Swap(m.sys), m.theirs, m.mine)
  }

  ghost function Facing(m: Memory, atA: bool): Memory {
    if atA then m else Mirror(m)
  }

  ghost predicate Able(m: Memory, cfg: Config) {
    ChannelRuns.Ready(m.sys, cfg) && |m.mine| == |m.theirs| == cfg.packetSize && cfg.packetSize >= 56
  }

  /** A packet never outgrows its buffer. */
  lemma ProduceFits(n: Node, now: nat, repeat: nat, cfg: Config)
    requires NodeOk(n, cfg) && cfg.packetSize >= 56
    ensures P.HEADER + SizeOfAll(Produce(n, now, repeat, cfg).sections) <= cfg.packetSize
  {
    hide C.Imbue, S.Imbue, R.Imbue, S.Sound, R.FillsFit, CL.Need, C.Ready;
    if n.conn.status != C.Finished {
      var room := cfg.packetSize - P.HEADER;
      CL.FortyBytesSuffice(C.Ready(n.conn, now));
      U.ConnectorRoom(n.conn, room, now, repeat, cfg);
      var b1 := C.Imbue(n.conn, room, now, repeat, cfg);
      RL.ImbueFrame(n.ist, b1.room, now, repeat);
      var b2 := R.Imbue(n.ist, b1.room, now, repeat);
      HeadCovered(n, cfg);
      SL.ImbueSections(n.ost, b2.room, now, repeat, cfg);
      var b3 := S.Imbue(n.ost, b2.room, now, repeat, cfg);
      SizeOfAllAppend(b1.sections, b2.sections);
      SizeOfAllAppend(b1.sections + b2.sections, b3.sections);
    }
  }

  lemma HeadCovered(n: Node, cfg: Config)
    requires NodeOk(n, cfg)
    ensures n.ost.head <= n.ost.range
  {
  }

  /** What the peer reads behind a body left open: whatever stands in the bytes the buffer still holds. */
  ghost predicate FromBuffer(p: Produced, buffer: seq<byte>, stale: seq<Section>)
    requires P.HEADER + SizeOfAll(p.sections) <= |buffer|
  {
    var behind := buffer[P.HEADER + SizeOfAll(p.sections)..];
    P.StubWalk(behind).Stopped? && stale == P.ParseBody(behind[..P.StubWalk(behind).end]).sections
  }

  /** No assumption on stale bytes; an end whose search for a stub leaves its buffer takes no further part. */
  ghost predicate ByteLegal(m: Memory, e: Event, cfg: Config)
    requires Able(m, cfg)
  {
    && Clean(m.sys, e, cfg)
    && (e.Emit? ==>
          var p := Produce(m.sys.a.node, e.now, e.repeat, cfg);
          ProduceFits(m.sys.a.node, e.now, e.repeat, cfg);
          p.leftOpen ==> FromBuffer(p, m.mine, e.stale))
  }

  /** One event at end `a`; `random` is the generator's draw for the packet. */
  ghost function ByteStep(m: Memory, e: Event, host: K.Host, secret: bv64, random: bv64, cfg: Config): Memory
    requires Able(m, cfg)
  {
    var sys := StepA(m.sys, e, cfg);
    var n := m.sys.a.node;
    if !e.Emit? || n.conn.status == C.Finished then m.(sys := sys)
    else
      ProduceFits(n, e.now, e.repeat, cfg);
      m.(sys := sys, mine := U.Sealed(host, secret, random, n.conn.local, Produce(n, e.now, e.repeat, cfg), m.mine))
  }

  datatype ByteTurn = ByteTurn(turn: Turn, random: bv64)

  ghost function ByteTake(m: Memory, t: ByteTurn, host: K.Host, secret: bv64, cfg: Config): Memory {
    var v := Facing(m, t.turn.atA);
    if Able(v, cfg) then Facing(ByteStep(v, t.turn.event, host, secret, t.random, cfg), t.turn.atA) else m
  }

  ghost predicate ByteRun(m: Memory, ts: seq<ByteTurn>, host: K.Host, secret: bv64, cfg: Config)
    decreases |ts|
  {
    ts != [] ==>
      && Able(Facing(m, ts[0].turn.atA), cfg)
      && ByteLegal(Facing(m, ts[0].turn.atA), ts[0].turn.event, cfg)
      && ByteRun(ByteTake(m, ts[0], host, secret, cfg), ts[1..], host, secret, cfg)
  }

  ghost function ByteExec(m: Memory, ts: seq<ByteTurn>, host: K.Host, secret: bv64, cfg: Config): Memory
    decreases |ts|
  {
    if ts == [] then m else ByteExec(ByteTake(m, ts[0], host, secret, cfg), ts[1..], host, secret, cfg)
  }

  function Turns(ts: seq<ByteTurn>): seq<Turn> {
    if ts == [] then [] else [ts[0].turn] + Turns(ts[1..])
  }

  lemma ByteTakeSystem(m: Memory, t: ByteTurn, host: K.Host, secret: bv64, cfg: Config)
    requires Able(Facing(m, t.turn.atA), cfg)
    ensures ByteTake(m, t, host, secret, cfg).sys == Take(m.sys, t.turn, cfg)
  {
    hide StepA, ChannelRuns.Ready, Produce, U.Sealed;
  }

  /** Without the bytes a byte run is a run without an assumption on stale sections. */
  lemma {:induction false} ByteRunIsClean(m: Memory, ts: seq<ByteTurn>, host: K.Host, secret: bv64, cfg: Config)
    requires ByteRun(m, ts, host, secret, cfg)
    ensures CleanRun(m.sys, Turns(ts), cfg) && ByteExec(m, ts, host, secret, cfg).sys == Exec(m.sys, Turns(ts), cfg)
    decreases |ts|
  {
    hide ByteTake, Take, Clean, ChannelRuns.Ready, Produce;
    if ts != [] {
      ByteTakeSystem(m, ts[0], host, secret, cfg);
      ByteRunIsClean(ByteTake(m, ts[0], host, secret, cfg), ts[1..], host, secret, cfg);
      assert Turns(ts)[1..] == Turns(ts[1..]);
    }
  }

  /** Two opened ends; the buffers hold whatever the memory held that was allocated for them. */
  function Opened(mine: seq<byte>, theirs: seq<byte>, cfg: Config): Memory {
    Memory(Start(cfg), mine, theirs)
  }

  ghost predicate ByteReached(m: Memory, host: K.Host, secret: bv64, cfg: Config) {
    exists mine, theirs, ts, atA ::
      && |mine| == |theirs| == cfg.packetSize
      && ByteRun(Opened(mine, theirs, cfg), ts, host, secret, cfg)
      && m == Facing(ByteExec(Opened(mine, theirs, cfg), ts, host, secret, cfg), atA)
  }

  /** Outside the leaky configurations, whatever the buffers hold, what reads have received is a prefix of what was written. */
  lemma BytesAreSafe(m: Memory, host: K.Host, secret: bv64, cfg: Config)
    requires ByteReached(m, host, secret, cfg) && !Leaky(cfg)
    ensures RL.Delivered(m.sys.b.node.ist) <= m.sys.ab.written
  {
    hide ByteRun, ByteExec, RL.Delivered, Leaky, CleanRun, Exec;
    var mine, theirs, ts, atA :| ByteRun(Opened(mine, theirs, cfg), ts, host, secret, cfg)
      && m == Facing(ByteExec(Opened(mine, theirs, cfg), ts, host, secret, cfg), atA);
    ByteRunIsClean(Opened(mine, theirs, cfg), ts, host, secret, cfg);
    var z := ByteExec(Opened(mine, theirs, cfg), ts, host, secret, cfg);
    assert Facing(z, atA).sys == View(z.sys, atA);
    SafeWhateverIsStale(Turns(ts), atA, cfg);
  }

  lemma {:induction false} ByteSnoc(m: Memory, ts: seq<ByteTurn>, t: ByteTurn, host: K.Host, secret: bv64, cfg: Config)
    requires ByteRun(m, ts, host, secret, cfg)
    requires var v := Facing(ByteExec(m, ts, host, secret, cfg), t.turn.atA); Able(v, cfg) && ByteLegal(v, t.turn.event, cfg)
    ensures ByteRun(m, ts + [t], host, secret, cfg)
    ensures ByteExec(m, ts + [t], host, secret, cfg) == ByteTake(ByteExec(m, ts, host, secret, cfg), t, host, secret, cfg)
    decreases |ts|
  {
    hide ByteTake, ByteLegal, Able;
    if ts == [] {
      assert [] + [t] == [t] && [t][1..] == [];
      assert ByteRun(ByteTake(m, t, host, secret, cfg), [], host, secret, cfg);
      assert ByteExec(ByteTake(m, t, host, secret, cfg), [], host, secret, cfg) == ByteTake(m, t, host, secret, cfg);
    } else {
      assert (ts + [t])[1..] == ts[1..] + [t];
      ByteSnoc(ByteTake(m, ts[0], host, secret, cfg), ts[1..], t, host, secret, cfg);
    }
  }

  lemma OpenedReached(mine: seq<byte>, theirs: seq<byte>, host: K.Host, secret: bv64, cfg: Config)
    requires |mine| == |theirs| == cfg.packetSize
    ensures ByteReached(Opened(mine, theirs, cfg), host, secret, cfg)
  {
    var m := Opened(mine, theirs, cfg);
    assert ByteRun(m, [], host, secret, cfg) && m == Facing(ByteExec(m, [], host, secret, cfg), true);
  }

  lemma ByteMirrored(m: Memory, host: K.Host, secret: bv64, cfg: Config)
    requires ByteReached(m, host, secret, cfg)
    ensures ByteReached(Mirror(m), host, secret, cfg)
  {
    hide ByteRun, ByteExec, Opened;
    var mine, theirs, ts, atA :| |mine| == |theirs| == cfg.packetSize
      && ByteRun(Opened(mine, theirs, cfg), ts, host, secret, cfg)
      && m == Facing(ByteExec(Opened(mine, theirs, cfg), ts, host, secret, cfg), atA);
    assert Mirror(m) == Facing(ByteExec(Opened(mine, theirs, cfg), ts, host, secret, cfg), !atA);
  }

  /** Byte runs go on with any event that is possible. */
  lemma ByteGoesOn(m: Memory, e: Event, host: K.Host, secret: bv64, random: bv64, cfg: Config)
    requires ByteReached(m, host, secret, cfg) && Able(m, cfg) && ByteLegal(m, e, cfg)
    ensures ByteReached(ByteStep(m, e, host, secret, random, cfg), host, secret, cfg)
  {
    hide ByteRun, ByteExec, ByteStep, ByteLegal, Opened, Able;
    var mine, theirs, ts, atA :| |mine| == |theirs| == cfg.packetSize
      && ByteRun(Opened(mine, theirs, cfg), ts, host, secret, cfg)
      && m == Facing(ByteExec(Opened(mine, theirs, cfg), ts, host, secret, cfg), atA);
    var t := ByteTurn(Turn(atA, e), random);
    ByteSnoc(Opened(mine, theirs, cfg), ts, t, host, secret, cfg);
    var more := ts + [t];
    assert ByteStep(m, e, host, secret, random, cfg) == Facing(ByteExec(Opened(mine, theirs, cfg), more, host, secret, cfg), atA);
  }
}
