/**
 * One direction of a UDP channel: a sender, a receiver, and a network that may
 * drop, repeat and reorder whatever was sent. The history records what was
 * written, every section either node ever sent, and which fragments arrived.
 */
module StreamLink {
  import opened Containers
  import opened Protocol
  import Sending
  import Receiving
  import SenderLaws
  import ReceiverLaws

  type Sender = Sending.Sender
  type Receiver = Receiving.Receiver

  /**
   * `forth` holds the sections sent by the sender's node, `back` those of the
   * receiver's node; `got` holds the handles of the fragments the receiver has
   * accepted; `cut` is the end of the last fragment cut.
   */
  datatype History = History(
    written: seq<byte>,
    accepted: seq<SenderLaws.Claim>,
    cut: nat,
    forth: set<Section>,
    back: set<Section>,
    got: set<nat>,
    senderOpen: bool,
    receiverOpen: bool)

  function InitHistory(): History {
    History([], [], 0, {}, {}, {}, true, true)
  }

  // ---------------------------------------------------------------- fragments on the wire

  function End(x: Section): nat
    requires x.Move?
  {
    x.handle + |x.fragment|
  }

  ghost predicate IsSlice(d: seq<byte>, w: seq<byte>, from: nat) {
    from + |d| <= |w| && d == w[from..from + |d|]
  }

  /** Every fragment ever sent is a non-empty slice of the written stream. */
  ghost predicate SlicesOk(forth: set<Section>, w: seq<byte>, cut: nat) {
    forall x :: x in forth && x.Move? ==> x.fragment != [] && End(x) <= cut && IsSlice(x.fragment, w, x.handle)
  }

  /** Two fragments ever sent are the same or disjoint. */
  ghost predicate FragmentsApart(forth: set<Section>) {
    forall x, y :: x in forth && y in forth && x.Move? && y.Move? ==> x == y || End(x) <= y.handle || End(y) <= x.handle
  }

  ghost predicate CutCovered(forth: set<Section>, cut: nat) {
    forall o :: 0 <= o < cut ==> InFragment(forth, o)
  }

  ghost predicate InFragment(forth: set<Section>, o: nat) {
    exists x :: x in forth && x.Move? && x.handle <= o < End(x)
  }

  ghost predicate WireOk(w: seq<byte>, cut: nat, forth: set<Section>) {
    && cut <= |w|
    && SlicesOk(forth, w, cut)
    && FragmentsApart(forth)
    && CutCovered(forth, cut)
  }

  // ---------------------------------------------------------------- the sender against the history

  /** Flights are fragments on the wire; a fragment no longer in flight has arrived. */
  ghost predicate FlightsKnown(moves: map<nat, Sending.Flight>, forth: set<Section>, got: set<nat>) {
    && (forall k :: k in moves ==> Move(k, moves[k].data) in forth)
    && (forall x :: x in forth && x.Move? && x.handle !in moves ==> x.handle in got)
  }

  /** The send queue is the part of the stream not yet cut. */
  ghost predicate QueueOk(s: Sender, w: seq<byte>, cut: nat) {
    && Sending.NoEmptyChunk(s.queue)
    && s.head == cut <= s.tail == |w|
    && Concat(s.queue) == w[s.head..]
  }

  // ---------------------------------------------------------------- the receiver against the history

  /** All bytes of fragment x are with the readers or in the reassembly map. */
  ghost predicate Present(data: map<nat, seq<byte>>, head: nat, x: Section)
    requires x.Move?
  {
    || End(x) <= head
    || (x.handle < head && head in data && head + |data[head]| == End(x))
    || (head <= x.handle && x.handle in data && data[x.handle] == x.fragment)
  }

  /** No byte of fragment x is with the readers or in the reassembly map. */
  ghost predicate Absent(data: map<nat, seq<byte>>, head: nat, x: Section)
    requires x.Move?
  {
    head <= x.handle && forall k :: k in data ==> k + |data[k]| <= x.handle || End(x) <= k
  }

  ghost predicate FragmentsSettled(data: map<nat, seq<byte>>, head: nat, forth: set<Section>, got: set<nat>) {
    forall x :: x in forth && x.Move? ==>
      (Present(data, head, x) || Absent(data, head, x)) && (x.handle in got ==> Present(data, head, x))
  }

  /** Map entries are slices of the stream between the head and the cut. */
  ghost predicate EntriesOk(data: map<nat, seq<byte>>, head: nat, w: seq<byte>, cut: nat) {
    forall k :: k in data ==> head <= k && k + |data[k]| <= cut && IsSlice(data[k], w, k)
  }

  /** The tail is the end of the last entry, or the head if there is none. */
  ghost predicate TailOk(data: map<nat, seq<byte>>, head: nat, tail: nat) {
    if data == map[] then tail == head
    else tail == MaxOf(data.Keys) + |data[MaxOf(data.Keys)]|
  }

  ghost predicate ReasmOk(r: Receiver, w: seq<byte>, cut: nat, forth: set<Section>, got: set<nat>) {
    && r.head <= cut <= |w|
    && EntriesOk(r.data, r.head, w, cut)
    && ReceiverLaws.DisjointEntries(r.data)
    && TailOk(r.data, r.head, r.tail)
    && FragmentsSettled(r.data, r.head, forth, got)
    && ReceiverLaws.Delivered(r) == w[..r.head]
    && r.acks <= got
  }

  // ---------------------------------------------------------------- credit and echoes

  ghost predicate CreditOk(range: nat, acks: set<nat>, edge: nat, edgeTime: Time, h: History) {
    && h.cut <= range <= edge
    && (forall v :: v in acks ==> v <= range)
    && (forall x :: x in h.back && x.Edge? ==> x.range <= edge)
    && (forall x :: x in h.forth && x.EdgeEcho? ==> x.range <= range)
    && (edgeTime == Never ==> range == edge)
  }

  /** A fragment is only echoed once it has arrived, and only fragments that were cut arrive. */
  ghost predicate EchoesOk(back: set<Section>, got: set<nat>, cut: nat) {
    && (forall x :: x in back && x.MoveEcho? ==> x.cursor in got)
    && (forall k :: k in got ==> k < cut)
  }

  ghost predicate SenderPart(s: Sender, h: History, cfg: Config) {
    && SenderLaws.SenderInv(s, h.accepted, cfg)
    && QueueOk(s, h.written, h.cut)
    && FlightsKnown(s.moves, h.forth, h.got)
  }

  ghost predicate ReceiverPart(r: Receiver, h: History, cfg: Config) {
    && ReceiverLaws.ReaderInv(r, cfg)
    && ReceiverLaws.Quiet(r)
    && ReasmOk(r, h.written, h.cut, h.forth, h.got)
  }

  /** What holds of both nodes and the wire, open or not. */
  ghost predicate SharedPart(s: Sender, r: Receiver, h: History) {
    && WireOk(h.written, h.cut, h.forth)
    && EchoesOk(h.back, h.got, h.cut)
    && CreditOk(s.range, s.acks, r.edge, r.edgeTime, h)
    && ReceiverLaws.Delivered(r) <= h.written
    && r.alarms == []
  }

  /** Offset o lies in a fragment that has arrived. */
  ghost predicate Arrived(forth: set<Section>, got: set<nat>, o: nat) {
    exists x :: x in forth && x.Move? && x.handle <= o < End(x) && x.handle in got
  }

  ghost predicate ArrivedBelow(n: nat, forth: set<Section>, got: set<nat>) {
    forall o :: 0 <= o < n ==> Arrived(forth, got, o)
  }

  /** A closed sender has reported every write, only bytes that have arrived, and successes in the order of the writes. */
  ghost predicate ClosedPart(s: Sender, h: History) {
    && s.writers == []
    && ArrivedBelow(SenderLaws.Total(s.posted), h.forth, h.got)
    && SenderLaws.Settled(s.posted) <= h.accepted
  }

  /** The invariant of one direction, spanning both nodes and everything ever sent. */
  ghost predicate LinkInv(s: Sender, r: Receiver, h: History, cfg: Config) {
    && SharedPart(s, r, h)
    && (h.senderOpen ==> SenderPart(s, h, cfg))
    && (!h.senderOpen ==> ClosedPart(s, h))
    && (h.receiverOpen ==> ReceiverPart(r, h, cfg))
  }

  lemma InitLink(cfg: Config)
    ensures LinkInv(Sending.InitSender(), Receiving.InitReceiver(cfg), InitHistory(), cfg)
  {
    SenderLaws.InitHolds(cfg);
    ReceiverLaws.InitKeeps(cfg);
  }

  // ---------------------------------------------------------------- write

  ghost function AfterWrite(s: Sender, h: History, buffer: seq<byte>, id: nat, cfg: Config): History
    requires s.head <= s.tail
  {
    h.(written := if Sending.Accepts(s, |buffer|, cfg) then h.written + buffer else h.written,
       accepted := SenderLaws.AcceptedAfter(s, buffer, id, cfg, h.accepted))
  }

  lemma WireGrows(w: seq<byte>, more: seq<byte>, cut: nat, forth: set<Section>)
    requires WireOk(w, cut, forth)
    ensures WireOk(w + more, cut, forth)
  {
  }

  lemma ReasmGrows(r: Receiver, w: seq<byte>, more: seq<byte>, cut: nat, forth: set<Section>, got: set<nat>)
    requires ReasmOk(r, w, cut, forth, got)
    ensures ReasmOk(r, w + more, cut, forth, got)
  {
    assert (w + more)[..r.head] == w[..r.head];
  }

  lemma WriteQueue(s: Sender, w: seq<byte>, cut: nat, buffer: seq<byte>, id: nat, cfg: Config)
    requires QueueOk(s, w, cut) && buffer != []
    ensures QueueOk(Sending.Append(s, buffer, id, cfg), if Sending.Accepts(s, |buffer|, cfg) then w + buffer else w, cut)
  {
    ConcatSnoc(s.queue, buffer);
    assert (w + buffer)[s.head..] == w[s.head..] + buffer;
    hide Concat;
  }

  lemma WriteSender(s: Sender, h: History, buffer: seq<byte>, id: nat, cfg: Config)
    requires SenderPart(s, h, cfg) && buffer != []
    ensures SenderPart(Sending.Append(s, buffer, id, cfg), AfterWrite(s, h, buffer, id, cfg), cfg)
  {
    hide SenderLaws.SenderInv, QueueOk, FlightsKnown;
    QueueSpans(s, h.written, h.cut);
    SenderLaws.AppendKeeps(s, buffer, id, h.accepted, cfg);
    WriteQueue(s, h.written, h.cut, buffer, id, cfg);
  }

  lemma QueueSpans(s: Sender, w: seq<byte>, cut: nat)
    requires QueueOk(s, w, cut)
    ensures s.head <= s.tail
  {
  }

  lemma WriteKeeps(s: Sender, r: Receiver, h: History, buffer: seq<byte>, id: nat, cfg: Config)
    requires LinkInv(s, r, h, cfg) && h.senderOpen && buffer != []
    ensures s.head <= s.tail
    ensures LinkInv(Sending.Append(s, buffer, id, cfg), r, AfterWrite(s, h, buffer, id, cfg), cfg)
  {
    hide SenderLaws.SenderInv, QueueOk, FlightsKnown, WireOk, EchoesOk, ReasmOk, ReceiverLaws.ReaderInv, ReceiverLaws.Quiet,
         ReceiverLaws.Delivered, ClosedPart, SenderLaws.AcceptedAfter;
    QueueSpans(s, h.written, h.cut);
    WriteSender(s, h, buffer, id, cfg);
    if Sending.Accepts(s, |buffer|, cfg) {
      WireGrows(h.written, buffer, h.cut, h.forth);
      if h.receiverOpen {
        ReasmGrows(r, h.written, buffer, h.cut, h.forth, h.got);
      }
    }
  }

  // ---------------------------------------------------------------- the sender's packets

  lemma ArrivedGrows(n: nat, forth: set<Section>, got: set<nat>, forth': set<Section>, got': set<nat>)
    requires ArrivedBelow(n, forth, got) && forth <= forth' && got <= got'
    ensures ArrivedBelow(n, forth', got')
  {
    forall o | 0 <= o < n ensures Arrived(forth', got', o) {
      assert Arrived(forth, got, o);
    }
  }

  /** What lies below the acknowledged cursor has arrived. */
  lemma CursorArrived(s: Sender, h: History, cfg: Config)
    requires WireOk(h.written, h.cut, h.forth) && SenderPart(s, h, cfg)
    ensures ArrivedBelow(Sending.Cursor(s), h.forth, h.got)
  {
    SenderLaws.CursorBounds(s);
    forall o | 0 <= o < Sending.Cursor(s) ensures Arrived(h.forth, h.got, o) {
      assert InFragment(h.forth, o);
      var x :| x in h.forth && x.Move? && x.handle <= o < End(x);
      assert x.handle !in s.moves.Keys;
    }
  }

  /** Sending anything that is neither a new fragment nor an edge echo beyond the credit changes nothing. */
  lemma ForthGrows(s: Sender, r: Receiver, h: History, cfg: Config, forth: set<Section>)
    requires LinkInv(s, r, h, cfg) && h.forth <= forth
    requires forall x :: x in forth && x !in h.forth ==> !x.Move?
    requires forall x :: x in forth && x !in h.forth && x.EdgeEcho? ==> x.range <= s.range
    ensures LinkInv(s, r, h.(forth := forth), cfg)
  {
    assert forall x :: x in forth && x.Move? ==> x in h.forth;
    assert CutCovered(forth, h.cut) by {
      forall o | 0 <= o < h.cut ensures InFragment(forth, o) {
        assert InFragment(h.forth, o);
      }
    }
    assert h.senderOpen ==> FlightsKnown(s.moves, forth, h.got);
    if !h.senderOpen {
      ArrivedGrows(SenderLaws.Total(s.posted), h.forth, h.got, forth, h.got);
    }
    assert h.receiverOpen ==> FragmentsSettled(r.data, r.head, forth, h.got);
  }

  /** Retransmission sends nothing new. */
  lemma ResendKeeps(s: Sender, r: Receiver, h: History, room: nat, now: nat, repeat: nat, cfg: Config)
    requires LinkInv(s, r, h, cfg) && h.senderOpen
    ensures var b := Sending.Resend(s, room, now, repeat, cfg.attempts);
            && LinkInv(b.sender, r, h, cfg)
            && Join(h.forth, b.sections) == h.forth
  {
    Sending.ResendFrame(s, room, now, repeat, cfg.attempts);
    SenderLaws.ResendKeeps(s, room, now, repeat, cfg.attempts, h.accepted, cfg);
    var b := Sending.Resend(s, room, now, repeat, cfg.attempts);
    forall x | x in b.sections ensures x in h.forth {
      assert x == Move(x.handle, s.moves[x.handle].data);
    }
    JoinKnown(h.forth, b.sections);
  }

  ghost function AfterCut(h: History, x: Section): History
    requires x.Move?
  {
    h.(forth := h.forth + {x}, cut := h.cut + |x.fragment|)
  }

  /** A freshly cut fragment extends the wire's cover of the stream. */
  lemma CutWire(w: seq<byte>, cut: nat, forth: set<Section>, x: Section)
    requires WireOk(w, cut, forth)
    requires x.Move? && x.handle == cut && x.fragment != [] && IsSlice(x.fragment, w, x.handle)
    ensures WireOk(w, cut + |x.fragment|, forth + {x})
  {
    var forth' := forth + {x};
    forall o | 0 <= o < cut + |x.fragment| ensures InFragment(forth', o) {
      if o < cut {
        assert InFragment(forth, o);
      } else {
        assert x in forth';
      }
    }
  }

  lemma CutReceive(r: Receiver, w: seq<byte>, cut: nat, forth: set<Section>, got: set<nat>, x: Section)
    requires ReasmOk(r, w, cut, forth, got)
    requires x.Move? && x.handle == cut && IsSlice(x.fragment, w, x.handle) && x.handle !in got
    ensures ReasmOk(r, w, cut + |x.fragment|, forth + {x}, got)
  {
    assert Absent(r.data, r.head, x);
  }

  lemma CutFlights(s: Sender, cut: nat, forth: set<Section>, got: set<nat>, w: seq<byte>, x: Section, time: nat)
    requires FlightsKnown(s.moves, forth, got) && WireOk(w, cut, forth)
    requires x.Move? && x.handle == s.head == cut
    ensures FlightsKnown(Emplace(s.moves, s.head, Sending.Flight(x.fragment, time, 1)), forth + {x}, got)
  {
    assert s.head !in s.moves;
  }

  lemma CutQueue(s: Sender, w: seq<byte>, cut: nat, max: nat, time: nat)
    requires QueueOk(s, w, cut) && 0 < max && s.queue != []
    ensures var x := Sending.CutSection(s, max);
            && QueueOk(Sending.CutOnce(s, max, time), w, cut + |x.fragment|)
            && x.handle == cut && x.fragment != [] && IsSlice(x.fragment, w, x.handle)
  {
    var x := Sending.CutSection(s, max);
    var t := Sending.CutOnce(s, max, time);
    assert w[s.head..] == x.fragment + Concat(t.queue);
    assert x.fragment == w[s.head..][..|x.fragment|];
    assert Concat(t.queue) == w[t.head..];
  }

  lemma CutOnceShared(s: Sender, r: Receiver, h: History, max: nat, time: nat)
    requires SharedPart(s, r, h) && QueueOk(s, h.written, h.cut)
    requires 0 < max <= s.range - s.head && s.queue != []
    ensures SharedPart(Sending.CutOnce(s, max, time), r, AfterCut(h, Sending.CutSection(s, max)))
  {
    CutQueue(s, h.written, h.cut, max, time);
    CutWire(h.written, h.cut, h.forth, Sending.CutSection(s, max));
  }

  lemma CutOnceSender(s: Sender, h: History, max: nat, time: nat, cfg: Config)
    requires SenderPart(s, h, cfg) && WireOk(h.written, h.cut, h.forth)
    requires 0 < max <= s.range - s.head && s.queue != [] && |s.moves.Keys| < cfg.swarm
    ensures SenderPart(Sending.CutOnce(s, max, time), AfterCut(h, Sending.CutSection(s, max)), cfg)
  {
    CutQueue(s, h.written, h.cut, max, time);
    SenderLaws.CutOnceKeeps(s, max, time, h.accepted, cfg);
    CutFlights(s, h.cut, h.forth, h.got, h.written, Sending.CutSection(s, max), time);
  }

  lemma CutOnceReceiver(s: Sender, r: Receiver, h: History, max: nat, time: nat, cfg: Config)
    requires ReceiverPart(r, h, cfg) && QueueOk(s, h.written, h.cut) && EchoesOk(h.back, h.got, h.cut)
    requires 0 < max && s.queue != []
    ensures ReceiverPart(r, AfterCut(h, Sending.CutSection(s, max)), cfg)
  {
    CutQueue(s, h.written, h.cut, max, time);
    CutReceive(r, h.written, h.cut, h.forth, h.got, Sending.CutSection(s, max));
  }

  lemma CutOnceKeeps(s: Sender, r: Receiver, h: History, max: nat, time: nat, cfg: Config)
    requires LinkInv(s, r, h, cfg) && h.senderOpen
    requires 0 < max <= s.range - s.head && s.queue != [] && |s.moves.Keys| < cfg.swarm
    ensures LinkInv(Sending.CutOnce(s, max, time), r, AfterCut(h, Sending.CutSection(s, max)), cfg)
  {
    hide WireOk, EchoesOk, FlightsKnown, QueueOk, SenderLaws.SenderInv, CreditOk;
    CutOnceShared(s, r, h, max, time);
    CutOnceSender(s, h, max, time, cfg);
    if h.receiverOpen {
      CutOnceReceiver(s, r, h, max, time, cfg);
    }
    hide SharedPart, SenderPart, ReceiverPart;
  }

  lemma HeadWithinCredit(s: Sender, r: Receiver, h: History, cfg: Config)
    requires LinkInv(s, r, h, cfg) && h.senderOpen
    ensures s.head == h.cut <= s.range <= r.edge
    ensures AfterSend(h, [], s.head) == h
  {
  }

  lemma AfterSendCons(h: History, x: Section, secs: seq<Section>, cut: nat)
    requires x.Move?
    ensures AfterSend(AfterCut(h, x), secs, cut) == AfterSend(h, [x] + secs, cut)
  {
    assert ([x] + secs)[1..] == secs;
  }

  lemma {:induction false} CutKeeps(s: Sender, r: Receiver, h: History, room: nat, now: nat, repeat: nat, cfg: Config)
    requires LinkInv(s, r, h, cfg) && h.senderOpen
    ensures var b := Sending.Cut(s, room, now, repeat, cfg.swarm);
            LinkInv(b.sender, r, AfterSend(h, b.sections, b.sender.head), cfg)
    decreases |s.queue|, if s.queue == [] then 0 else |s.queue[0]|
  {
    hide LinkInv, AfterSend, Sending.CutOnce, Sending.Pull, Sending.NoEmptyChunk, Concat;
    HeadWithinCredit(s, r, h, cfg);
    var max := Sending.CutLimit(s, room, cfg.swarm);
    if max == 0 {
      assert Sending.Cut(s, room, now, repeat, cfg.swarm) == Sending.Burst(s, [], room, true);
    } else {
      var x := Sending.CutSection(s, max);
      CutOnceKeeps(s, r, h, max, now + repeat, cfg);
      var t := Sending.CutOnce(s, max, now + repeat);
      CutKeeps(t, r, AfterCut(h, x), room - SizeOf(x), now, repeat, cfg);
      var b := Sending.Cut(t, room - SizeOf(x), now, repeat, cfg.swarm);
      AfterSendCons(h, x, b.sections, b.sender.head);
      assert Sending.Cut(s, room, now, repeat, cfg.swarm) == b.(sections := [x] + b.sections);
    }
  }

  /** The history once the sender's node has sent a packet. */
  ghost function AfterSend(h: History, sections: seq<Section>, cut: nat): History {
    h.(forth := Join(h.forth, sections), cut := cut)
  }

  lemma EchoKeeps(s: Sender, r: Receiver, h: History, room: nat, cfg: Config)
    requires LinkInv(s, r, h, cfg) && h.senderOpen
    ensures var b := Sending.EchoEdges(s, room);
            LinkInv(b.sender, r, AfterSend(h, b.sections, b.sender.head), cfg)
  {
    SenderLaws.EchoEdgesFrame(s, room);
    var b := Sending.EchoEdges(s, room);
    JoinMembers(h.forth, b.sections);
    ForthGrows(b.sender, r, h, cfg, Join(h.forth, b.sections));
  }

  /** One whole packet of the sending half. */
  lemma SendKeeps(s: Sender, r: Receiver, h: History, room: nat, now: nat, repeat: nat, cfg: Config)
    requires LinkInv(s, r, h, cfg) && h.senderOpen
    ensures s.head <= s.range
    ensures var b := Sending.Imbue(s, room, now, repeat, cfg);
            LinkInv(b.sender, r, AfterSend(h, b.sections, b.sender.head), cfg)
  {
    hide LinkInv;
    HeadWithinCredit(s, r, h, cfg);
    Sending.ResendFrame(s, room, now, repeat, cfg.attempts);
    var b := Sending.Imbue(s, room, now, repeat, cfg);
    var first := Sending.Resend(s, room, now, repeat, cfg.attempts);
    ResendKeeps(s, r, h, room, now, repeat, cfg);
    if first.ok {
      var second := Sending.Cut(first.sender, first.room, now, repeat, cfg.swarm);
      CutKeeps(first.sender, r, h, first.room, now, repeat, cfg);
      var g := AfterSend(h, second.sections, second.sender.head);
      EchoKeeps(second.sender, r, g, second.room, cfg);
      var third := Sending.EchoEdges(second.sender, second.room);
      JoinAppend(h.forth, first.sections, second.sections);
      JoinAppend(h.forth, first.sections + second.sections, third.sections);
      assert AfterSend(g, third.sections, third.sender.head) == AfterSend(h, b.sections, b.sender.head);
    }
  }

  // ---------------------------------------------------------------- packets that reach the sender

  lemma HearsSender(s: Sender, h: History, x: Section, cfg: Config)
    requires SenderPart(s, h, cfg) && EchoesOk(h.back, h.got, h.cut) && x in h.back
    ensures SenderPart(Sending.ParseSection(s, x), h, cfg)
  {
    SenderLaws.ParseSectionKeeps(s, x, h.accepted, cfg);
    if x.MoveEcho? {
      SenderLaws.MoveEchoKeeps(s, x.cursor, h.accepted, cfg);
      hide SenderLaws.SenderInv, Sending.OnMoveEcho;
      assert FlightsKnown(Sending.OnMoveEcho(s, x.cursor).moves, h.forth, h.got);
    }
  }

  lemma HearsShared(s: Sender, r: Receiver, h: History, x: Section)
    requires SharedPart(s, r, h) && x in h.back
    ensures SharedPart(Sending.ParseSection(s, x), r, h)
  {
    hide WireOk, EchoesOk, ReceiverLaws.Delivered;
    if x.MoveEcho? {
      var s1 := s.(moves := s.moves - {x.cursor});
      SenderLaws.SettleFrame(s1, Sending.Cursor(s1));
    }
  }

  lemma SenderHears(s: Sender, r: Receiver, h: History, x: Section, cfg: Config)
    requires LinkInv(s, r, h, cfg) && h.senderOpen && x in h.back
    ensures LinkInv(Sending.ParseSection(s, x), r, h, cfg)
  {
    hide WireOk, CreditOk, ReceiverPart, Sending.ParseSection, SenderPart, ReceiverLaws.Delivered;
    HearsSender(s, h, x, cfg);
    HearsShared(s, r, h, x);
    hide SharedPart;
  }

  /** A whole packet, made of any sections the receiver's node ever sent, reaches the sender. */
  lemma {:induction false} SenderHearsAll(s: Sender, r: Receiver, h: History, secs: seq<Section>, cfg: Config)
    requires LinkInv(s, r, h, cfg) && h.senderOpen
    requires forall x :: x in secs ==> x in h.back
    ensures LinkInv(Sending.Parse(s, secs), r, h, cfg)
    decreases |secs|
  {
    hide LinkInv;
    if secs != [] {
      SenderHears(s, r, h, secs[0], cfg);
      SenderHearsAll(Sending.ParseSection(s, secs[0]), r, h, secs[1..], cfg);
    }
  }

  // ---------------------------------------------------------------- fragments that reach the receiver

  /** Room that was advertised is room that exists: no fragment of a conforming sender is turned away. */
  lemma NeverRefused(s: Sender, r: Receiver, h: History, x: Section, cfg: Config)
    requires SharedPart(s, r, h) && ReceiverLaws.ReaderInv(r, cfg) && TailOk(r.data, r.head, r.tail)
    requires EntriesOk(r.data, r.head, h.written, h.cut)
    requires x in h.forth && x.Move?
    ensures !Receiving.Refuses(r, x.handle, |x.fragment|, cfg)
  {
    ReceiverLaws.FrontOnly(r, cfg);
  }

  lemma InsertEntries(data: map<nat, seq<byte>>, head: nat, w: seq<byte>, cut: nat, x: Section)
    requires EntriesOk(data, head, w, cut) && ReceiverLaws.DisjointEntries(data)
    requires x.Move? && x.fragment != [] && End(x) <= cut && IsSlice(x.fragment, w, x.handle)
    requires Absent(data, head, x)
    ensures EntriesOk(data[x.handle := x.fragment], head, w, cut)
    ensures ReceiverLaws.DisjointEntries(data[x.handle := x.fragment])
  {
  }

  lemma InsertSettled(data: map<nat, seq<byte>>, head: nat, forth: set<Section>, got: set<nat>, x: Section)
    requires FragmentsSettled(data, head, forth, got) && FragmentsApart(forth)
    requires ReceiverLaws.DisjointEntries(data)
    requires forall y :: y in forth && y.Move? ==> y.fragment != []
    requires x in forth && x.Move? && Absent(data, head, x)
    ensures FragmentsSettled(data[x.handle := x.fragment], head, forth, got + {x.handle})
  {
    var data' := data[x.handle := x.fragment];
    assert x.handle !in data;
    forall y | y in forth && y.Move?
      ensures (Present(data', head, y) || Absent(data', head, y)) && (y.handle in got + {x.handle} ==> Present(data', head, y))
    {
      if Present(data, head, y) {
        assert Present(data', head, y);
      } else if y != x {
        assert Absent(data', head, y);
      }
    }
  }

  /** A fragment that is neither behind the head nor mapped yet is wholly missing. */
  lemma PlaceData(r: Receiver, w: seq<byte>, cut: nat, forth: set<Section>, got: set<nat>, x: Section)
    requires WireOk(w, cut, forth) && ReasmOk(r, w, cut, forth, got)
    requires x in forth && x.Move?
    ensures var t := Receiving.Place(r, x.handle, x.fragment);
            && EntriesOk(t.data, t.head, w, cut)
            && ReceiverLaws.DisjointEntries(t.data)
            && FragmentsSettled(t.data, t.head, forth, got + {x.handle})
  {
    if x.handle >= r.head && x.handle !in r.data {
      assert Absent(r.data, r.head, x);
      InsertEntries(r.data, r.head, w, cut, x);
      InsertSettled(r.data, r.head, forth, got, x);
    } else {
      assert !Absent(r.data, r.head, x);
      forall y | y in forth && y.Move? && y.handle == x.handle ensures Present(r.data, r.head, y) {
        assert y == x;
      }
    }
  }

  lemma PlaceKeeps(r: Receiver, w: seq<byte>, cut: nat, forth: set<Section>, got: set<nat>, x: Section)
    requires WireOk(w, cut, forth) && ReasmOk(r, w, cut, forth, got)
    requires x in forth && x.Move?
    ensures ReasmOk(Receiving.OnMove(r, x.handle, x.fragment), w, cut, forth, got + {x.handle})
    ensures r.tail <= Receiving.OnMove(r, x.handle, x.fragment).tail
  {
    PlaceData(r, w, cut, forth, got, x);
    var t := Receiving.OnMove(r, x.handle, x.fragment);
    assert ReceiverLaws.Delivered(t) == ReceiverLaws.Delivered(r);
    if r.data != map[] {
      var last := MaxOf(r.data.Keys);
      assert last in t.data.Keys && t.data[last] == r.data[last];
    }
  }

  lemma PullApart(r: Receiver, max: nat)
    requires ReceiverLaws.DisjointEntries(r.data) && Receiving.Available(r) && 0 < max
    ensures ReceiverLaws.DisjointEntries(Receiving.AfterPull(r, max).data)
    ensures |r.data[r.head]| > max ==> r.head + max !in r.data
  {
  }

  lemma SliceSplit(d: seq<byte>, w: seq<byte>, from: nat, n: nat)
    requires IsSlice(d, w, from) && n <= |d|
    ensures IsSlice(d[..n], w, from) && IsSlice(d[n..], w, from + n)
  {
  }

  lemma PullEntries(r: Receiver, w: seq<byte>, cut: nat, max: nat)
    requires EntriesOk(r.data, r.head, w, cut) && ReceiverLaws.DisjointEntries(r.data)
    requires Receiving.Available(r) && 0 < max
    ensures var t := Receiving.AfterPull(r, max);
            && EntriesOk(t.data, t.head, w, cut)
            && IsSlice(Receiving.Pulled(r, max), w, r.head)
            && t.head == r.head + |Receiving.Pulled(r, max)| <= cut
  {
    hide IsSlice, ReceiverLaws.DisjointEntries, Receiving.AfterPull;
    PullApart(r, max);
    PullShape(r, max);
    assert IsSlice(r.data[r.head], w, r.head);
    if |r.data[r.head]| > max {
      SliceSplit(r.data[r.head], w, r.head, max);
    }
  }

  /** A pull drops the front entry or keeps its rest; the other entries stay and lie behind it. */
  lemma PullShape(r: Receiver, max: nat)
    requires ReceiverLaws.DisjointEntries(r.data) && Receiving.Available(r) && 0 < max
    ensures var t := Receiving.AfterPull(r, max);
            var top := r.data[r.head];
            && t.head == r.head + |Receiving.Pulled(r, max)|
            && (forall k :: k in t.data && k != t.head ==> k in r.data && t.data[k] == r.data[k] && t.head < k)
            && (t.head in t.data ==>
                  || (|top| > max && t.data[t.head] == top[max..])
                  || (t.head in r.data && t.data[t.head] == r.data[t.head]))
  {
  }

  lemma PullTail(r: Receiver, max: nat)
    requires ReceiverLaws.DisjointEntries(r.data) && TailOk(r.data, r.head, r.tail)
    requires Receiving.Available(r) && 0 < max
    ensures var t := Receiving.AfterPull(r, max); TailOk(t.data, t.head, t.tail)
  {
    var t := Receiving.AfterPull(r, max);
    var last := MaxOf(r.data.Keys);
    if last != r.head {
      assert last in t.data.Keys;
      assert MaxOf(t.data.Keys) == last;
    } else {
      assert t.data.Keys <= {t.head};
    }
  }

  lemma PullSettled(r: Receiver, forth: set<Section>, got: set<nat>, max: nat)
    requires ReceiverLaws.DisjointEntries(r.data) && FragmentsSettled(r.data, r.head, forth, got)
    requires forall x :: x in forth && x.Move? ==> x.fragment != []
    requires Receiving.Available(r) && 0 < max
    ensures var t := Receiving.AfterPull(r, max); FragmentsSettled(t.data, t.head, forth, got)
  {
    var t := Receiving.AfterPull(r, max);
    forall x | x in forth && x.Move?
      ensures (Present(t.data, t.head, x) || Absent(t.data, t.head, x)) && (x.handle in got ==> Present(t.data, t.head, x))
    {
      if Present(r.data, r.head, x) {
        assert Present(t.data, t.head, x);
      } else {
        assert r.head + |r.data[r.head]| <= x.handle;
        assert Absent(t.data, t.head, x);
      }
    }
  }

  lemma FillFrontKeeps(r: Receiver, w: seq<byte>, cut: nat, forth: set<Section>, got: set<nat>, cfg: Config)
    requires ReceiverLaws.ReaderInv(r, cfg) && ReasmOk(r, w, cut, forth, got) && SlicesOk(forth, w, cut)
    requires Receiving.Available(r) && r.readers != [] && !Receiving.Full(r)
    ensures ReasmOk(Receiving.FillFront(r), w, cut, forth, got)
  {
    hide EntriesOk, TailOk, FragmentsSettled, ReceiverLaws.DisjointEntries, ReceiverLaws.Delivered;
    var max := r.readers[0].size - |r.readers[0].fill|;
    ReceiverLaws.FillFrontKeeps(r, cfg);
    PullApart(r, max);
    PullEntries(r, w, cut, max);
    PullTail(r, max);
    PullSettled(r, forth, got, max);
    SliceExtends(Receiving.Pulled(r, max), w, r.head);
  }

  lemma SliceExtends(d: seq<byte>, w: seq<byte>, from: nat)
    requires IsSlice(d, w, from)
    ensures w[..from] + d == w[..from + |d|]
  {
  }

  lemma CompleteKeeps(r: Receiver, w: seq<byte>, cut: nat, forth: set<Section>, got: set<nat>, cfg: Config)
    requires ReceiverLaws.ReaderCore(r, cfg) && ReasmOk(r, w, cut, forth, got) && r.readers != []
    ensures ReasmOk(Receiving.Complete(r), w, cut, forth, got)
  {
    ReceiverLaws.CompleteKeeps(r, cfg);
  }

  lemma StepKeeps(r: Receiver, w: seq<byte>, cut: nat, forth: set<Section>, got: set<nat>, cfg: Config)
    requires ReceiverLaws.ReaderInv(r, cfg) && ReasmOk(r, w, cut, forth, got) && SlicesOk(forth, w, cut)
    requires Receiving.Available(r) && r.readers != []
    ensures ReceiverLaws.ReaderInv(Receiving.Step(r), cfg)
    ensures ReasmOk(Receiving.Step(r), w, cut, forth, got)
  {
    ReceiverLaws.StepKeeps(r, cfg);
    hide ReasmOk, SlicesOk, ReceiverLaws.Delivered;
    if Receiving.Full(r) {
      CompleteKeeps(r, w, cut, forth, got, cfg);
    } else {
      FillFrontKeeps(r, w, cut, forth, got, cfg);
      ReceiverLaws.FillFrontKeeps(r, cfg);
      CompleteKeeps(Receiving.FillFront(r), w, cut, forth, got, cfg);
    }
  }

  /** The edge only moves forward, and moving it re-arms its announcement. */
  ghost predicate EdgeMoves(r: Receiver, t: Receiver) {
    && r.edge <= t.edge
    && (t.edgeTime == Never ==> t.edge == r.edge && r.edgeTime == Never)
    && t.acks == r.acks
    && t.alarms == r.alarms
  }

  lemma {:induction false} TransmitKeeps(r: Receiver, w: seq<byte>, cut: nat, forth: set<Section>, got: set<nat>, cfg: Config)
    requires ReceiverLaws.ReaderInv(r, cfg) && ReasmOk(r, w, cut, forth, got) && SlicesOk(forth, w, cut)
    ensures var t := Receiving.Transmit(r);
            && ReasmOk(t, w, cut, forth, got)
            && EdgeMoves(r, t)
            && r.head <= t.head
    decreases |r.readers|, |r.data|
  {
    hide ReasmOk, SlicesOk, ReceiverLaws.ReaderInv;
    ReceiverLaws.Fits(r, cfg);
    if Receiving.Available(r) && r.readers != [] {
      StepKeeps(r, w, cut, forth, got, cfg);
      TransmitKeeps(Receiving.Step(r), w, cut, forth, got, cfg);
    }
  }

  /** The link while the receiver works through a packet: reads are served only at its end. */
  ghost predicate LinkBusy(s: Sender, r: Receiver, h: History, cfg: Config) {
    && SharedPart(s, r, h)
    && (h.senderOpen ==> SenderPart(s, h, cfg))
    && (!h.senderOpen ==> ClosedPart(s, h))
    && ReceiverLaws.ReaderInv(r, cfg)
    && ReasmOk(r, h.written, h.cut, h.forth, h.got)
  }

  /** The fragments that have arrived once `x` has. */
  ghost function Heard(got: set<nat>, x: Section): set<nat> {
    if x.Move? then got + {x.handle} else got
  }

  ghost function HeardAll(got: set<nat>, secs: seq<Section>): set<nat>
    decreases |secs|
  {
    if secs == [] then got else HeardAll(Heard(got, secs[0]), secs[1..])
  }

  lemma HearReceiver(r: Receiver, w: seq<byte>, cut: nat, forth: set<Section>, got: set<nat>, x: Section, cfg: Config)
    requires WireOk(w, cut, forth) && ReasmOk(r, w, cut, forth, got) && x in forth
    requires ReceiverLaws.ReaderInv(r, cfg)
    ensures ReasmOk(Receiving.Hear(r, x), w, cut, forth, Heard(got, x))
    ensures ReceiverLaws.ReaderInv(Receiving.Hear(r, x), cfg)
    ensures ReceiverLaws.Delivered(Receiving.Hear(r, x)) == ReceiverLaws.Delivered(r)
    ensures r.tail <= Receiving.Hear(r, x).tail
  {
    if x.Move? {
      PlaceKeeps(r, w, cut, forth, got, x);
    }
  }

  lemma HearSender(s: Sender, h: History, x: Section, cfg: Config)
    requires SenderPart(s, h, cfg)
    ensures SenderPart(s, h.(got := Heard(h.got, x)), cfg)
  {
    hide SenderLaws.SenderInv, QueueOk;
    assert FlightsKnown(s.moves, h.forth, Heard(h.got, x));
  }

  /** An echo of the current edge shows that the sender has all the credit the receiver ever gave. */
  lemma HearShared(s: Sender, r: Receiver, h: History, x: Section)
    requires SharedPart(s, r, h) && x in h.forth
    ensures SharedPart(s, Receiving.Hear(r, x), h.(got := Heard(h.got, x)))
  {
    var t := Receiving.Hear(r, x);
    assert ReceiverLaws.Delivered(t) == ReceiverLaws.Delivered(r);
  }

  lemma TailAhead(r: Receiver, h: History)
    requires ReasmOk(r, h.written, h.cut, h.forth, h.got)
    ensures r.head <= r.tail && TailOk(r.data, r.head, r.tail) && EntriesOk(r.data, r.head, h.written, h.cut)
  {
  }

  lemma ReceiverHears(s: Sender, r: Receiver, h: History, x: Section, cfg: Config)
    requires LinkBusy(s, r, h, cfg) && x in h.forth
    ensures LinkBusy(s, Receiving.Hear(r, x), h.(got := Heard(h.got, x)), cfg)
    ensures x.Move? ==> !Receiving.Refuses(r, x.handle, |x.fragment|, cfg)
    ensures r.tail <= Receiving.Hear(r, x).tail
  {
    hide SenderPart, ReasmOk, EchoesOk, CreditOk;
    HearShared(s, r, h, x);
    HearReceiver(r, h.written, h.cut, h.forth, h.got, x, cfg);
    if h.senderOpen {
      HearSender(s, h, x, cfg);
    } else {
      ArrivedGrows(SenderLaws.Total(s.posted), h.forth, h.got, h.forth, Heard(h.got, x));
    }
    if x.Move? {
      TailAhead(r, h);
      NeverRefused(s, r, h, x, cfg);
    }
    hide SharedPart;
  }

  lemma {:induction false} ReceiverScans(s: Sender, r: Receiver, h: History, secs: seq<Section>, cfg: Config)
    requires LinkBusy(s, r, h, cfg)
    requires forall x :: x in secs ==> x in h.forth
    ensures LinkBusy(s, Receiving.Scan(r, secs, cfg), h.(got := HeardAll(h.got, secs)), cfg)
    ensures Receiving.Scan(r, secs, cfg).alarms == r.alarms && r.tail <= Receiving.Scan(r, secs, cfg).tail
    decreases |secs|
  {
    hide LinkBusy;
    if secs != [] {
      ReceiverHears(s, r, h, secs[0], cfg);
      ReceiverScans(s, Receiving.Hear(r, secs[0]), h.(got := Heard(h.got, secs[0])), secs[1..], cfg);
    }
  }

  /** Serving reads ends a packet or starts a read. */
  lemma ReceiverServes(s: Sender, r: Receiver, h: History, cfg: Config)
    requires LinkBusy(s, r, h, cfg) && h.receiverOpen
    ensures ReceiverLaws.ReaderInv(r, cfg) && LinkInv(s, Receiving.Transmit(r), h, cfg)
  {
    var t := Receiving.Transmit(r);
    ReceiverLaws.TransmitKeeps(r, cfg);
    TransmitKeeps(r, h.written, h.cut, h.forth, h.got, cfg);
    hide ReceiverLaws.ReaderInv, ReceiverLaws.Quiet, SenderPart, WireOk, EchoesOk, FragmentsSettled, EntriesOk, TailOk;
    assert CreditOk(s.range, s.acks, t.edge, t.edgeTime, h);
    assert ReceiverLaws.Delivered(t) == h.written[..t.head];
  }

  /** A whole packet, made of any sections the sender's node ever sent, reaches the receiver: nothing is refused. */
  lemma ReceiverHearsAll(s: Sender, r: Receiver, h: History, secs: seq<Section>, cfg: Config)
    requires LinkInv(s, r, h, cfg) && h.receiverOpen
    requires forall x :: x in secs ==> x in h.forth
    ensures Receiving.FillsFit(r)
    ensures LinkInv(s, Receiving.Parse(r, secs, cfg), h.(got := HeardAll(h.got, secs)), cfg)
    ensures r.tail <= Receiving.Parse(r, secs, cfg).tail
    ensures Receiving.Scan(r, secs, cfg).alarms == r.alarms
  {
    hide SharedPart, SenderPart, ReasmOk;
    assert LinkBusy(s, r, h, cfg);
    ReceiverLaws.Fits(r, cfg);
    ReceiverScans(s, r, h, secs, cfg);
    Receiving.ScanKeepsFit(r, secs, cfg);
    ReceiverLaws.TransmitTail(Receiving.Scan(r, secs, cfg));
    ReceiverServes(s, Receiving.Scan(r, secs, cfg), h.(got := HeardAll(h.got, secs)), cfg);
  }

  // ---------------------------------------------------------------- read

  lemma ReadKeeps(s: Sender, r: Receiver, h: History, size: nat, id: nat, cfg: Config)
    requires LinkInv(s, r, h, cfg) && h.receiverOpen
    ensures Receiving.FillsFit(r)
    ensures LinkInv(s, Receiving.Append(r, size, id), h, cfg)
  {
    var t := r.(readers := r.readers + [Receiving.Reader(size, [], id)]);
    ReceiverLaws.EnqueueKeeps(r, size, id, cfg);
    hide ReceiverLaws.ReaderInv, SenderPart, WireOk, EchoesOk, FragmentsSettled, EntriesOk, TailOk;
    assert LinkBusy(s, t, h, cfg);
    ReceiverServes(s, t, h, cfg);
  }

  // ---------------------------------------------------------------- the receiver's packets

  /** Sending anything that is neither a fragment echo nor an edge beyond the advertised one changes nothing. */
  lemma BackGrows(s: Sender, r: Receiver, h: History, cfg: Config, back: set<Section>)
    requires LinkInv(s, r, h, cfg) && h.back <= back
    requires forall x :: x in back && x !in h.back && x.MoveEcho? ==> x.cursor in h.got
    requires forall x :: x in back && x !in h.back && x.Edge? ==> x.range <= r.edge
    ensures LinkInv(s, r, h.(back := back), cfg)
  {
  }

  /** The history once the receiver's node has sent a packet. */
  ghost function AfterReply(h: History, sections: seq<Section>): History {
    h.(back := Join(h.back, sections))
  }

  lemma ReplyKeeps(s: Sender, r: Receiver, h: History, room: nat, now: nat, repeat: nat, cfg: Config)
    requires LinkInv(s, r, h, cfg) && h.receiverOpen
    ensures var b := Receiving.Imbue(r, room, now, repeat);
            LinkInv(s, b.receiver, AfterReply(h, b.sections), cfg)
  {
    var b := Receiving.Imbue(r, room, now, repeat);
    ReceiverLaws.ImbueFrame(r, room, now, repeat);
    ReceiverLaws.ImbueKeeps(r, room, now, repeat, cfg);
    JoinMembers(h.back, b.sections);
    assert ReceiverLaws.Delivered(b.receiver) == ReceiverLaws.Delivered(r);
    assert ReasmOk(b.receiver, h.written, h.cut, h.forth, h.got);
    assert LinkInv(s, b.receiver, h, cfg);
    hide ReceiverPart, SenderPart, SharedPart;
    BackGrows(s, b.receiver, h, cfg, Join(h.back, b.sections));
  }

  // ---------------------------------------------------------------- the end of either half

  lemma SenderCloses(s: Sender, r: Receiver, h: History, code: Code, cfg: Config)
    requires LinkInv(s, r, h, cfg) && code != Success
    ensures LinkInv(Sending.Error(s, code), r, h.(senderOpen := false), cfg)
  {
    var t := Sending.Error(s, code);
    if h.senderOpen {
      CursorArrived(s, h, cfg);
      SenderLaws.ErrorAccounts(s, h.accepted, cfg, code);
      SenderLaws.RefundsSettleNothing(s.posted, s.writers, Sending.Cursor(s), code);
    } else {
      assert Sending.Refunds(s.writers, Sending.Cursor(s), code) == [];
      assert t.posted == s.posted;
    }
    hide WireOk, EchoesOk, ReceiverPart, SenderLaws.Total, SenderLaws.Settled, ArrivedBelow;
  }

  lemma ReceiverCloses(s: Sender, r: Receiver, h: History, code: Code, cfg: Config)
    requires LinkInv(s, r, h, cfg)
    ensures LinkInv(s, Receiving.Error(r, code), h.(receiverOpen := false), cfg)
  {
    ReceiverLaws.ErrorDelivers(r, code);
  }
}
