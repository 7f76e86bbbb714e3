/** One end of a UDP channel as an object: the three components, the packet buffer and the obfuscation. */
module UdpTransport {
  import opened Protocol
  import opened Keystream
  import N = Channel
  import C = Connecting
  import S = Sending
  import R = Receiving
  import CL = ConnectorLaws
  import SL = SenderLaws
  import RL = ReceiverLaws
  import ConnectorObject
  import OStreaming
  import IStreaming
  import P = PacketCodec
  import UdpCipher

  /** Offsets and time stamps fit 64 bits. */
  predicate Numbers64(xs: seq<Section>) {
    forall i :: 0 <= i < |xs| ==>
      match xs[i]
      case Ping(v) => v < P.U64
      case PingEcho(v) => v < P.U64
      case Move(h, _) => h < P.U64
      case MoveEcho(v) => v < P.U64
      case Edge(v) => v < P.U64
      case EdgeEcho(v) => v < P.U64
      case _ => true
  }

  lemma {:induction false} SectionFits(xs: seq<Section>, i: nat)
    requires i < |xs|
    ensures SizeOf(xs[i]) <= SizeOfAll(xs)
    decreases |xs|
  {
    if i > 0 {
      SectionFits(xs[1..], i - 1);
    }
  }

  /** In a packet below 64 KiB no length field wraps. */
  lemma PacketEncodable(xs: seq<Section>)
    requires Numbers64(xs) && SizeOfAll(xs) < 0x1_0000
    ensures P.AllEncodable(xs)
  {
    forall i | 0 <= i < |xs| ensures P.Encodable(xs[i]) {
      SectionFits(xs, i);
    }
  }

  // ---------------------------------------------------------------- bytes on the wire

  /** A packet as it leaves: plain without a secret, inverted with one. */
  function OnWire(host: Host, secret: bv64, random: bv64, pin: nat, body: seq<byte>): seq<byte> {
    var plain := P.Header(pin) + body;
    if secret == 0 then plain else UdpCipher.Inverted(host, secret, random, plain)
  }

  /** What `produce` comes to: nothing to send, a packet, or an exception that ends the process. */
  datatype Outcome = Silent | Sends(bytes: seq<byte>) | Aborts

  /** What leaves; behind a body left open, `trim` keeps the stale bytes of the buffer up to where its walk ends. */
  function Dispatched(host: Host, secret: bv64, random: bv64, pin: nat, p: N.Produced, buffer: seq<byte>): Outcome
    requires P.HEADER + SizeOfAll(p.sections) <= |buffer|
  {
    if p.sections == [] then Silent
    else if !p.leftOpen then Sends(OnWire(host, secret, random, pin, P.Encode(p.sections)))
    else
      var stale := buffer[P.HEADER + SizeOfAll(p.sections)..];
      match P.StubWalk(stale)
      case Overrun => Aborts
      case Stopped(n) => Sends(OnWire(host, secret, random, pin, P.Encode(p.sections) + stale[..n]))
  }

  /** The packet buffer after `produce`; masking happens where the packet stands. */
  function Sealed(host: Host, secret: bv64, random: bv64, pin: nat, p: N.Produced, buffer: seq<byte>): (s: seq<byte>)
    requires P.HEADER + SizeOfAll(p.sections) <= |buffer|
    ensures |s| == |buffer|
  {
    var end := P.HEADER + SizeOfAll(p.sections);
    if !p.leftOpen then
      var plain := P.Closed(buffer, pin, p.sections);
      if p.sections == [] then plain else Masked(host, secret, random, plain, end)
    else
      var plain := P.Draft(buffer, pin, p.sections);
      match P.StubWalk(buffer[end..])
      case Overrun => plain
      case Stopped(n) => Masked(host, secret, random, plain, end + n)
  }

  function Masked(host: Host, secret: bv64, random: bv64, plain: seq<byte>, size: nat): (s: seq<byte>)
    requires P.HEADER <= size <= |plain|
    ensures |s| == |plain|
  {
    if secret == 0 then plain else UdpCipher.Inverted(host, secret, random, plain[..size]) + plain[size..]
  }

  /** What `feed` and `valid` make of received bytes: a packet, with its flaw if there is one, or nothing. */
  datatype Arrival = Dropped | Arrived(packet: N.Packet, flaw: P.Flaw)

  function Arrive(host: Host, secret: bv64, random: bv64, s: seq<byte>): Arrival {
    if |s| < P.HEADER then Dropped
    else
      var plain := if secret == 0 then s else UdpCipher.Inverted(host, secret, random, s);
      if |plain| <= P.HEADER || P.SignOf(plain) != P.SIGN || P.VersionOf(plain) != P.VERSION then Dropped
      else
        var body := P.ParseBody(plain[P.HEADER..]);
        Arrived(N.Packet(P.PinOf(plain), body.sections), body.flaw)
  }

  /** The packet and its flaw, as `feed` is given a body. */
  function Carried(pin: nat, body: P.Body): Arrival {
    Arrived(N.Packet(pin, body.sections), body.flaw)
  }

  /** The sections in front of the flaw. */
  function Sane(secs: seq<Section>, flaw: P.Flaw): seq<Section> {
    if flaw.ShortAfter? && flaw.n <= |secs| then secs[..flaw.n] else secs
  }

  /** What `feed` comes to: the end goes on, or an exception ends its process. */
  datatype Fate = Lives(node: N.Node) | Ends

  /**
   * The receiving stream reads the handle of every move section up to the first fragment it refuses; a section too
   * short for its handle makes it throw. The connector and the sending stream step over such a section.
   */
  predicate Throws(n: N.Node, p: N.Packet, flaw: P.Flaw, cfg: Config) {
    && flaw.ShortAfter?
    && C.Admits(n.conn, p.pin)
    && N.Streaming(n.conn.status)
    && R.Scan(n.ist, Sane(p.sections, flaw), cfg).alarms == n.ist.alarms
  }

  function Fed(n: N.Node, a: Arrival, now: nat, cfg: Config): Fate
    requires N.NodeOk(n, cfg)
  {
    match a
    case Dropped => Lives(n)
    case Arrived(p, flaw) => if Throws(n, p, flaw, cfg) then Ends else Lives(N.Feed(n, p, now, cfg))
  }

  lemma HeaderPlain(pin: nat, body: seq<byte>)
    ensures UdpCipher.Plain(P.Header(pin) + body)
  {
    var s := P.Header(pin) + body;
    ZeroNumber(8);
    assert s[..8] == P.BigEndian(0, 8);
    forall i | 0 <= i < 8 ensures s[i] == 0 {
      assert s[i] == s[..8][i];
    }
  }

  lemma {:induction false} ZeroNumber(width: nat)
    ensures forall i :: 0 <= i < width ==> P.BigEndian(0, width)[i] == 0
  {
    if width > 0 {
      ZeroNumber(width - 1);
    }
  }

  /**
   * What one end sends is what the other end is fed: pin and sections survive encoding and obfuscation, and so does
   * whatever stands in bytes trailing behind them, a section too short for its handle included.
   */
  lemma PacketsSurvive(host: Host, secret: bv64, random: bv64, other: bv64, pin: nat, xs: seq<Section>, trailing: seq<byte>)
    requires P.AllEncodable(xs) && xs != [] && pin < 0x1_0000_0000
    requires secret != 0 ==> random != secret
    ensures Arrive(host, secret, other, OnWire(host, secret, random, pin, P.Encode(xs) + trailing))
            == Carried(pin, P.Followed(P.Body(xs, P.Flawless), P.ParseBody(trailing)))
  {
    hide P.Header, P.Encode, P.ParseBody, P.SignOf, P.VersionOf, P.PinOf, UdpCipher.Inverted, P.Encodable, P.Followed;
    var body := P.Encode(xs) + trailing;
    var plain := P.Header(pin) + body;
    P.HeaderFacts(pin, body);
    P.ParseEncoded(xs, trailing);
    assert plain[P.HEADER..] == body;
    BodyBytes(xs);
    HeaderPlain(pin, body);
    if secret != 0 {
      UdpCipher.RestoresPacket(host, secret, random, other, plain);
    }
  }

  lemma BodyBytes(xs: seq<Section>)
    requires xs != []
    ensures |P.Encode(xs)| > 0
  {
    SectionFits(xs, 0);
  }

  /** Whatever leaves an end arrives as its pin, its sections, and what stands in the stale bytes behind an open body. */
  lemma DispatchArrives(host: Host, secret: bv64, random: bv64, other: bv64, pin: nat, p: N.Produced, buffer: seq<byte>)
    requires P.HEADER + SizeOfAll(p.sections) <= |buffer| && P.AllEncodable(p.sections) && pin < 0x1_0000_0000
    requires secret != 0 ==> random != secret
    ensures var out := Dispatched(host, secret, random, pin, p, buffer);
            var w := P.StubWalk(buffer[P.HEADER + SizeOfAll(p.sections)..]);
            var stale := if p.leftOpen && w.Stopped? then buffer[P.HEADER + SizeOfAll(p.sections)..][..w.end] else [];
            out.Sends? ==> Arrive(host, secret, other, out.bytes)
                           == Carried(pin, P.Followed(P.Body(p.sections, P.Flawless), P.ParseBody(stale)))
  {
    hide P.Header, P.Encode, P.ParseBody, P.StubWalk, Arrive, OnWire, P.Encodable;
    var stale := buffer[P.HEADER + SizeOfAll(p.sections)..];
    if p.sections != [] {
      if p.leftOpen {
        var w := P.StubWalk(stale);
        if w.Stopped? {
          PacketsSurvive(host, secret, random, other, pin, p.sections, stale[..w.end]);
        }
      } else {
        PacketsSurvive(host, secret, random, other, pin, p.sections, []);
        assert P.Encode(p.sections) + [] == P.Encode(p.sections);
      }
    }
  }

  /**
   * A packet with an open body ends the process of a receiver that hears it if and only if a section too short for
   * its handle stands in the bytes behind the body and no fragment in front of that section is refused.
   */
  lemma OpenBodyIsFatalIff(host: Host, secret: bv64, random: bv64, other: bv64, pin: nat, p: N.Produced, buffer: seq<byte>,
                           m: N.Node, now: nat, cfg: Config)
    requires P.HEADER + SizeOfAll(p.sections) <= |buffer| && P.AllEncodable(p.sections) && pin < 0x1_0000_0000
    requires secret != 0 ==> random != secret
    requires p.leftOpen && Dispatched(host, secret, random, pin, p, buffer).Sends?
    requires N.NodeOk(m, cfg) && C.Admits(m.conn, pin) && N.Streaming(m.conn.status)
    ensures P.StubWalk(buffer[P.HEADER + SizeOfAll(p.sections)..]).Stopped?
    ensures var stale := buffer[P.HEADER + SizeOfAll(p.sections)..];
            var behind := P.ParseBody(stale[..P.StubWalk(stale).end]);
            Fed(m, Arrive(host, secret, other, Dispatched(host, secret, random, pin, p, buffer).bytes), now, cfg) == Ends
            <==> && behind.flaw.ShortAfter?
                 && R.Scan(m.ist, p.sections + behind.sections[..behind.flaw.n], cfg).alarms == m.ist.alarms
  {
    hide P.ParseBody, P.StubWalk, Arrive, OnWire, P.AllEncodable, R.Scan, Fed, N.NodeOk, SizeOfAll, C.Admits, Carried, P.Followed;
    DispatchArrives(host, secret, random, other, pin, p, buffer);
    var stale := buffer[P.HEADER + SizeOfAll(p.sections)..];
    FatalBehind(pin, p.sections, P.ParseBody(stale[..P.StubWalk(stale).end]), m, now, cfg);
  }

  lemma FatalBehind(pin: nat, xs: seq<Section>, behind: P.Body, m: N.Node, now: nat, cfg: Config)
    requires N.NodeOk(m, cfg) && C.Admits(m.conn, pin) && N.Streaming(m.conn.status)
    requires behind.flaw.ShortAfter? ==> behind.flaw.n <= |behind.sections|
    ensures Fed(m, Carried(pin, P.Followed(P.Body(xs, P.Flawless), behind)), now, cfg) == Ends
            <==> behind.flaw.ShortAfter? && R.Scan(m.ist, xs + behind.sections[..behind.flaw.n], cfg).alarms == m.ist.alarms
  {
    hide R.Scan, N.Feed, N.NodeOk, C.Admits;
    if behind.flaw.ShortAfter? {
      var n := behind.flaw.n;
      assert (xs + behind.sections)[..|xs| + n] == xs + behind.sections[..n];
    }
  }

  // ---------------------------------------------------------------- room

  lemma ConnectorRoom(c: C.Connector, room: nat, now: nat, repeat: nat, cfg: Config)
    requires C.JobsOk(c) && CL.Need(C.Ready(c, now)) <= room
    ensures var b := C.Imbue(c, room, now, repeat, cfg); b.room + SizeOfAll(b.sections) == room
  {
    CL.FitsAlways(c, room, now, repeat);
  }

  // ---------------------------------------------------------------- the object

  class Transport {
    const cfg: Config
    const host: Host
    const secret: bv64
    const connector: ConnectorObject.Connector
    const istreamer: IStreaming.IStreamer
    const ostreamer: OStreaming.OStreamer
    const buffer: array<byte>
    var declined: seq<N.Declined>

    function State(): N.Node
      reads this, connector, istreamer, ostreamer
    {
      N.Node(connector.State(), ostreamer.State(), istreamer.State(), declined)
    }

    ghost predicate Valid()
      reads this, connector, istreamer, ostreamer
    {
      && connector.cfg == istreamer.cfg == ostreamer.cfg == cfg
      && connector.Valid() && istreamer.Valid() && ostreamer.Valid()
      && buffer.Length == cfg.packetSize
      && 56 <= cfg.packetSize < 0x1_0000
    }

    constructor (host: Host, secret: bv64, cfg: Config)
      requires 56 <= cfg.packetSize < 0x1_0000
      ensures Valid() && State() == N.InitNode(cfg)
    {
      this.cfg, this.host, this.secret := cfg, host, secret;
      connector := new ConnectorObject.Connector(cfg);
      istreamer := new IStreaming.IStreamer(cfg);
      ostreamer := new OStreaming.OStreamer(cfg);
      buffer := new byte[cfg.packetSize];
      declined := [];
    }

    method AbortStreams(code: Code)
      requires Valid()
      modifies istreamer, ostreamer
      ensures Valid() && State() == N.AbortStreams(old(State()), code)
    {
      istreamer.Error(code);
      ostreamer.Error(code);
    }

    method Mistake(code: Code)
      requires Valid()
      modifies connector, istreamer, ostreamer
      ensures Valid() && State() == N.Mistake(old(State()), code)
    {
      connector.Error(code);
      AbortStreams(code);
    }

    /** Recover a received packet in place and take it apart. */
    method Open(bytes: seq<byte>, random: bv64) returns (arrival: Arrival)
      ensures arrival == Arrive(host, secret, random, bytes)
    {
      hide UdpCipher.Inverted, P.ParseBody, P.Number;
      if |bytes| < P.HEADER {
        return Dropped;
      }
      var a := new byte[|bytes|](i requires 0 <= i < |bytes| => bytes[i]);
      assert a[..] == a[..a.Length] == bytes;
      if secret != 0 {
        UdpCipher.Invert(host, secret, random, a, a.Length);
        assert a[..a.Length] == a[..];
      }
      var plain := a[..];
      if |plain| <= P.HEADER || P.SignOf(plain) != P.SIGN || P.VersionOf(plain) != P.VERSION {
        return Dropped;
      }
      var body := P.ReadBody(plain);
      arrival := Arrived(N.Packet(P.PinOf(plain), body.sections), body.flaw);
    }

    /** `feed`: the streams hear a packet before the connector does. False means that an exception ends the process. */
    method Feed(bytes: seq<byte>, now: nat, random: bv64) returns (lives: bool)
      requires Valid()
      modifies connector, istreamer, ostreamer
      ensures Valid()
      ensures N.NodeOk(old(State()), cfg)
      ensures match Fed(old(State()), Arrive(host, secret, random, bytes), now, cfg)
              case Ends => !lives
              case Lives(n) => lives && State() == n
    {
      hide C.Parse, S.Parse, R.Parse, R.Scan, S.Sound, R.FillsFit, C.JobsOk;
      var arrival := Open(bytes, random);
      if arrival.Dropped? {
        return true;
      }
      var p := arrival.packet;
      var admitted := connector.Admits(p.pin);
      if admitted {
        var status := connector.status;
        if status == C.Linked || status == C.Accepting || status == C.Connecting {
          lives := Hear(p.sections, arrival.flaw);
          if !lives {
            return;
          }
          ostreamer.Parse(p.sections);
        }
        connector.Parse(p.pin, p.sections, now);
        status := connector.status;
        if status == C.Tearing || status == C.Shutting {
          AbortStreams(ConnectionAborted);
        }
      }
      lives := true;
    }

    /** The receiving stream hears a body; false if it comes to a section too short for its handle. */
    method Hear(secs: seq<Section>, flaw: P.Flaw) returns (lives: bool)
      requires istreamer.Valid() && istreamer.cfg == cfg
      modifies istreamer
      ensures istreamer.Valid()
      ensures !lives <==> flaw.ShortAfter? && R.Scan(old(istreamer.State()), Sane(secs, flaw), cfg).alarms == old(istreamer.alarms)
      ensures lives ==> R.FillsFit(old(istreamer.State())) && istreamer.State() == R.Parse(old(istreamer.State()), secs, cfg)
    {
      hide R.Scan, R.Transmit, R.FillsFit;
      ghost var was := istreamer.State();
      var all := istreamer.Parse(Sane(secs, flaw));
      lives := !(flaw.ShortAfter? && all);
      if !all && flaw.ShortAfter? && flaw.n <= |secs| {
        R.ScanStops(was, secs, flaw.n, cfg);
      }
    }

    /** Collect the sections of the next packet; `leftOpen` tells that the last pass returned without its stub. */
    method Gather(now: nat, repeat: nat)
      returns (first: seq<Section>, second: seq<Section>, third: seq<Section>, leftOpen: bool)
      requires Valid() && connector.status != C.Finished
      modifies connector, istreamer, ostreamer
      ensures Valid() && N.NodeOk(old(State()), cfg)
      ensures N.Produced(State(), first + second + third, leftOpen) == N.Produce(old(State()), now, repeat, cfg)
      ensures P.HEADER + SizeOfAll(first) + SizeOfAll(second) + SizeOfAll(third) <= cfg.packetSize
      ensures leftOpen ==> third != []
    {
      hide C.Imbue, S.Imbue, R.Imbue, S.Sound, R.FillsFit, C.JobsOk, CL.Need, C.Ready;
      var room := cfg.packetSize - P.HEADER;
      CL.FortyBytesSuffice(C.Ready(connector.State(), now));
      ConnectorRoom(connector.State(), room, now, repeat, cfg);
      var left;
      first, left := connector.Imbue(room, now, repeat);
      second, third, leftOpen := [], [], false;
      if connector.status == C.Linked || connector.status == C.Connecting {
        RL.ImbueFrame(istreamer.State(), left, now, repeat);
        second, left := istreamer.Imbue(left, now, repeat);
        ostreamer.HeadCovered();
        SL.ImbueSections(ostreamer.State(), left, now, repeat, cfg);
        var ok;
        third, left, ok := ostreamer.Imbue(left, now, repeat);
        leftOpen := !ok && third != [];
      } else {
        assert first + [] + [] == first;
      }
    }

    /** `produce`: the packet to send, if any. */
    method Produce(now: nat, repeat: nat, random: bv64) returns (out: Outcome)
      requires Valid()
      requires N.NodeOk(State(), cfg) ==> Numbers64(N.Produce(State(), now, repeat, cfg).sections)
      modifies connector, istreamer, ostreamer, buffer
      ensures Valid() && N.NodeOk(old(State()), cfg)
      ensures var p := N.Produce(old(State()), now, repeat, cfg);
              && State() == p.node
              && P.HEADER + SizeOfAll(p.sections) <= cfg.packetSize
              && out == Dispatched(host, secret, random, old(connector.local), p, old(buffer[..]))
              && buffer[..] == if old(connector.status) == C.Finished then old(buffer[..])
                               else Sealed(host, secret, random, old(connector.local), p, old(buffer[..]))
    {
      hide N.Produce, S.Sound, R.FillsFit, C.JobsOk, P.Header, P.Encode, UdpCipher.Inverted, SizeOfAll, Dispatched, Sealed;
      if connector.status == C.Finished {
        FinishedProduces(State(), now, repeat, buffer[..], random);
        AbortStreams(ConnectionAborted);
        return Silent;
      }
      var pin := connector.local;
      var first, second, third, leftOpen := Gather(now, repeat);
      ghost var p := N.Produced(State(), first + second + third, leftOpen);
      ThreeSizes(first, second, third);
      if leftOpen {
        out := SealOpen(pin, first, second, third, random, p);
      } else {
        out := Seal(pin, first, second, third, random, p);
      }
    }

    /** A finished end only resets its streams. */
    lemma FinishedProduces(n: N.Node, now: nat, repeat: nat, bytes: seq<byte>, random: bv64)
      requires N.NodeOk(n, cfg) && n.conn.status == C.Finished && |bytes| >= P.HEADER
      ensures N.Produce(n, now, repeat, cfg) == N.Produced(N.AbortStreams(n, ConnectionAborted), [], false)
      ensures SizeOfAll([]) == 0
      ensures Dispatched(host, secret, random, n.conn.local, N.Produce(n, now, repeat, cfg), bytes) == Silent
    {
    }

    lemma ThreeSizes(first: seq<Section>, second: seq<Section>, third: seq<Section>)
      ensures SizeOfAll(first + second + third) == SizeOfAll(first) + SizeOfAll(second) + SizeOfAll(third)
    {
      SizeOfAllAppend(first, second);
      SizeOfAllAppend(first + second, third);
    }

    /** In a packet that fits the buffer every section can be encoded. */
    lemma Fits(first: seq<Section>, second: seq<Section>, third: seq<Section>)
      requires Valid() && Numbers64(first + second + third)
      requires P.HEADER + SizeOfAll(first) + SizeOfAll(second) + SizeOfAll(third) <= cfg.packetSize
      ensures P.AllEncodable(first) && P.AllEncodable(second) && P.AllEncodable(third)
    {
      var xs := first + second + third;
      ThreeSizes(first, second, third);
      PacketEncodable(xs);
      assert forall i :: 0 <= i < |first| ==> first[i] == xs[i];
      assert forall i :: 0 <= i < |second| ==> second[i] == xs[|first| + i];
      assert forall i :: 0 <= i < |third| ==> third[i] == xs[|first| + |second| + i];
      hide P.Encodable;
    }

    /** The first `size` bytes of the buffer, obfuscated where they stand. */
    method Obfuscated(size: nat, random: bv64) returns (bytes: seq<byte>)
      requires Valid() && P.HEADER <= size <= buffer.Length
      modifies buffer
      ensures bytes == if secret == 0 then old(buffer[..size]) else UdpCipher.Inverted(host, secret, random, old(buffer[..size]))
      ensures buffer[..] == Masked(host, secret, random, old(buffer[..]), size)
    {
      hide UdpCipher.Inverted;
      if secret != 0 {
        UdpCipher.Invert(host, secret, random, buffer, size);
      }
      bytes := buffer[..size];
      assert buffer[..] == buffer[..size] + buffer[size..];
      assert old(buffer[..])[..size] == old(buffer[..size]) && old(buffer[..])[size..] == old(buffer[size..]);
    }

    /** Write the packet into the reused buffer, trim it and obfuscate it. */
    method Seal(pin: nat, first: seq<Section>, second: seq<Section>, third: seq<Section>, random: bv64, ghost p: N.Produced)
      returns (out: Outcome)
      requires Valid() && Numbers64(first + second + third) && p.sections == first + second + third && !p.leftOpen
      requires P.HEADER + SizeOfAll(first) + SizeOfAll(second) + SizeOfAll(third) <= cfg.packetSize
      modifies buffer
      ensures P.HEADER + SizeOfAll(p.sections) <= cfg.packetSize
      ensures out == Dispatched(host, secret, random, pin, p, old(buffer[..]))
      ensures buffer[..] == Sealed(host, secret, random, pin, p, old(buffer[..]))
    {
      hide P.Header, P.Encode, UdpCipher.Inverted, SizeOfAll, P.StubWalk;
      ThreeSizes(first, second, third);
      var size := Assembled(pin, first, second, third);
      if size <= P.HEADER {
        return Silent;
      }
      var bytes := Obfuscated(size, random);
      out := Sends(bytes);
    }

    /** The same when no stub was written behind the last pass. */
    method SealOpen(pin: nat, first: seq<Section>, second: seq<Section>, third: seq<Section>, random: bv64, ghost p: N.Produced)
      returns (out: Outcome)
      requires Valid() && Numbers64(first + second + third) && p.sections == first + second + third && p.leftOpen && third != []
      requires P.HEADER + SizeOfAll(first) + SizeOfAll(second) + SizeOfAll(third) <= cfg.packetSize
      modifies buffer
      ensures P.HEADER + SizeOfAll(p.sections) <= cfg.packetSize
      ensures out == Dispatched(host, secret, random, pin, p, old(buffer[..]))
      ensures buffer[..] == Sealed(host, secret, random, pin, p, old(buffer[..]))
    {
      hide P.Header, P.Encode, UdpCipher.Inverted, SizeOfAll, P.StubWalk, P.Draft, P.Encodable;
      ThreeSizes(first, second, third);
      Fits(first, second, third);
      ghost var was := buffer[..];
      ghost var xs := first + second + third;
      var w := P.AssembleOpen(buffer, pin, first, second, third);
      DraftWalk(was, pin, xs);
      if w.Overrun? {
        return Aborts;
      }
      var bytes := Obfuscated(P.HEADER + w.end, random);
      out := Sends(bytes);
    }

    lemma DraftWalk(was: seq<byte>, pin: nat, xs: seq<Section>)
      requires P.HEADER + SizeOfAll(xs) <= |was| && P.AllEncodable(xs)
      ensures var stale := was[P.HEADER + SizeOfAll(xs)..];
              var draft := P.Draft(was, pin, xs);
              var w := P.StubWalk(draft[P.HEADER..]);
              && w == P.Beyond(SizeOfAll(xs), P.StubWalk(stale))
              && (w.Stopped? ==> draft[..P.HEADER + w.end] == P.Header(pin) + (P.Encode(xs) + stale[..P.StubWalk(stale).end]))
    {
      hide P.Header, P.Encode, P.StubWalk, P.AllEncodable, SizeOfAll;
      var stale := was[P.HEADER + SizeOfAll(xs)..];
      var draft := P.Draft(was, pin, xs);
      assert draft == P.Header(pin) + (P.Encode(xs) + stale);
      P.WalkEncoded(xs, stale);
      var w := P.StubWalk(stale);
      if w.Stopped? {
        assert (P.Encode(xs) + stale)[..SizeOfAll(xs) + w.end] == P.Encode(xs) + stale[..w.end];
      }
    }

    method Assembled(pin: nat, first: seq<Section>, second: seq<Section>, third: seq<Section>) returns (size: nat)
      requires Valid() && Numbers64(first + second + third)
      requires P.HEADER + SizeOfAll(first) + SizeOfAll(second) + SizeOfAll(third) <= cfg.packetSize
      modifies buffer
      ensures size <= buffer.Length && buffer[..size] == P.Header(pin) + P.Encode(first + second + third)
      ensures size <= P.HEADER <==> first + second + third == []
      ensures size >= P.HEADER
      ensures P.HEADER + SizeOfAll(first + second + third) <= buffer.Length
      ensures buffer[..] == P.Closed(old(buffer[..]), pin, first + second + third)
    {
      hide P.Header, P.Encode, P.Encodable;
      ghost var xs := first + second + third;
      Fits(first, second, third);
      size := P.Assemble(buffer, pin, first, second, third);
      assert |buffer[..size]| == P.HEADER + SizeOfAll(xs);
      if xs != [] {
        SectionFits(xs, 0);
      }
    }

    method Read(size: nat, id: nat)
      requires Valid()
      modifies this`declined, istreamer
      ensures Valid() && N.NodeOk(old(State()), cfg) && State() == N.Read(old(State()), size, id, cfg)
    {
      if connector.status != C.Linked {
        declined := declined + [N.Declined(id, N.TurnAway(connector.status))];
        return;
      }
      istreamer.Append(size, id);
    }

    method Write(data: seq<byte>, id: nat)
      requires Valid()
      modifies this`declined, ostreamer
      ensures Valid() && N.NodeOk(old(State()), cfg) && State() == N.Write(old(State()), data, id, cfg)
    {
      if connector.status != C.Linked {
        declined := declined + [N.Declined(id, N.TurnAway(connector.status))];
        return;
      }
      ostreamer.Append(data, id);
    }

    method Shutdown(id: nat, now: nat)
      requires Valid()
      modifies connector
      ensures Valid() && State() == N.Shutdown(old(State()), id, now, cfg)
    {
      var wake := connector.Shutdown(id, now);
    }

    method Connect(id: nat, pin: nat, now: nat)
      requires Valid()
      modifies this`declined, connector
      ensures Valid() && State() == N.Connect(old(State()), id, pin, now, cfg)
    {
      if connector.status != C.Initial {
        declined := declined + [N.Declined(id, NoPermission)];
        return;
      }
      var run := connector.Connect(id, pin, now);
    }

    method Accept(id: nat, pin: nat, now: nat)
      requires Valid()
      modifies this`declined, connector
      ensures Valid() && State() == N.Accept(old(State()), id, pin, now, cfg)
    {
      if connector.status != C.Initial {
        declined := declined + [N.Declined(id, NoPermission)];
        return;
      }
      var run := connector.Accept(id, pin, now);
    }
  }
}
