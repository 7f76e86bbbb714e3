/** What `writable` and `readable` promise the next call, in every run, and what a call outside the linked phase gets. */
module QueryLaws {
  import opened Containers
  import opened Protocol
  import opened Channel
  import opened ChannelRuns
  import opened ChannelLaws
  import opened ChannelTheorems
  import opened Handshake
  import C = Connecting
  import S = Sending
  import R = Receiving
  import CL = ConnectorLaws
  import SL = SenderLaws
  import RL = ReceiverLaws
  import L = StreamLink

  // ---------------------------------------------------------------- one read on its own

  /** What serving reads does to the buffer: it takes a gapless run off its front. */
  ghost predicate TakesFront(r: R.Receiver, t: R.Receiver) {
    && r.head <= t.head
    && (forall o: nat :: r.head <= o < t.head ==> RL.Covered(r, o))
    && (forall o: nat :: t.head <= o && RL.Covered(r, o) ==> RL.Covered(t, o))
  }

  ghost predicate Sorted(r: R.Receiver) {
    RL.DisjointEntries(r.data) && forall k :: k in r.data ==> r.head <= k
  }

  /** The bytes the only read has got. */
  function Got(r: R.Receiver, t: R.Receiver): seq<byte>
    requires t.readers == [] ==> |t.posted| > |r.posted|
  {
    if t.readers == [] then t.posted[|r.posted|].bytes else t.readers[0].fill
  }

  /** From r, whose only read is open, to t: the read has grown by what was taken, and is done or still open. */
  ghost predicate ServesOne(r: R.Receiver, t: R.Receiver)
    requires |r.readers| == 1
  {
    var f := r.readers[0];
    && (if t.readers == [] then |t.posted| == |r.posted| + 1 && t.posted == r.posted + [R.ReadPost(f.id, Success, t.posted[|r.posted|].bytes)]
        else t.posted == r.posted && t.readers == [f.(fill := t.readers[0].fill)])
    && f.fill <= Got(r, t)
    && |Got(r, t)| == |f.fill| + t.head - r.head
    && (if t.readers == [] then |Got(r, t)| == f.size else |Got(r, t)| < f.size)
  }

  lemma PullTakes(r: R.Receiver, max: nat)
    requires Sorted(r) && R.Available(r) && max > 0
    ensures var t := R.AfterPull(r, max); Sorted(t) && TakesFront(r, t) && r.head < t.head
  {
    var t := R.AfterPull(r, max);
    L.PullApart(r, max);
    L.PullShape(r, max);
    forall o: nat | r.head <= o < t.head ensures RL.Covered(r, o) {
      RL.EntryCovers(r, r.head, o);
    }
    forall o: nat | t.head <= o && RL.Covered(r, o) ensures RL.Covered(t, o) {
      var k: nat :| k in r.data && k <= o < k + |r.data[k]|;
      if k == r.head {
        RL.EntryCovers(t, t.head, o);
      } else {
        assert k in t.data && t.data[k] == r.data[k];
        RL.EntryCovers(t, k, o);
      }
    }
  }

  lemma TakesOn(r: R.Receiver, t: R.Receiver, u: R.Receiver)
    requires TakesFront(r, t) && TakesFront(t, u)
    requires forall o: nat :: t.head <= o && RL.Covered(t, o) ==> RL.Covered(r, o)
    ensures TakesFront(r, u)
  {
    hide RL.Covered;
  }

  /** Nothing new is covered either. */
  lemma PullBrings(r: R.Receiver, max: nat)
    requires Sorted(r) && R.Available(r) && max > 0
    ensures var t := R.AfterPull(r, max); forall o: nat :: t.head <= o && RL.Covered(t, o) ==> RL.Covered(r, o)
  {
    var t := R.AfterPull(r, max);
    L.PullShape(r, max);
    forall o: nat | t.head <= o && RL.Covered(t, o) ensures RL.Covered(r, o) {
      var k: nat :| k in t.data && k <= o < k + |t.data[k]|;
      if k == t.head && !(k in r.data && t.data[k] == r.data[k]) {
        RL.EntryCovers(r, r.head, o);
      } else {
        RL.EntryCovers(r, k, o);
      }
    }
  }

  lemma SameBuffer(r: R.Receiver, t: R.Receiver, u: R.Receiver)
    requires TakesFront(r, t) && u.head == t.head && u.data == t.data
    ensures TakesFront(r, u)
  {
    assert forall o: nat :: RL.Covered(u, o) <==> RL.Covered(t, o);
  }

  lemma {:induction false} OneRead(r: R.Receiver)
    requires R.FillsFit(r) && Sorted(r) && |r.readers| == 1 && !R.Full(r)
    ensures var t := R.Transmit(r); TakesFront(r, t) && ServesOne(r, t)
    decreases |r.data|
  {
    hide TakesFront, ServesOne, Sorted, R.Available, R.Pulled, R.AfterPull;
    R.TransmitUnfolds(r);
    if R.Available(r) {
      var f := r.readers[0];
      var max: nat := f.size - |f.fill|;
      var u := R.FillFront(r);
      Filled(r);
      if R.Full(u) {
        var t := R.Complete(u);
        StepCompletes(r);
        CompletedOne(r, u);
        R.TransmitUnfolds(t);
        SameBuffer(r, u, t);
      } else {
        OpenOne(r, u);
        Shrinks(r);
        OneRead(u);
        var t := R.Transmit(u);
        TakesOn(r, u, t);
        ServesOn(r, u, t);
      }
    } else {
      NothingTaken(r);
    }
  }

  lemma NothingTaken(r: R.Receiver)
    requires R.FillsFit(r) && |r.readers| == 1 && !R.Full(r)
    ensures TakesFront(r, r) && ServesOne(r, r)
  {
  }

  lemma Filled(r: R.Receiver)
    requires R.FillsFit(r) && Sorted(r) && R.Available(r) && |r.readers| == 1 && !R.Full(r)
    ensures var u := R.FillFront(r);
            && Sorted(u) && TakesFront(r, u) && R.FillsFit(u)
            && (forall o: nat :: u.head <= o && RL.Covered(u, o) ==> RL.Covered(r, o))
            && u.posted == r.posted && |u.readers| == 1
            && u.readers[0] == r.readers[0].(fill := u.readers[0].fill)
            && r.readers[0].fill <= u.readers[0].fill
            && |u.readers[0].fill| == |r.readers[0].fill| + u.head - r.head
  {
    hide Sorted, TakesFront, R.Available;
    var max: nat := r.readers[0].size - |r.readers[0].fill|;
    PullTakes(r, max);
    PullBrings(r, max);
    RL.PullAdvances(r, max);
    var t := R.AfterPull(r, max);
    var u := R.FillFront(r);
    SameBuffer(r, t, u);
    SameSorted(t, u);
    assert forall o: nat :: RL.Covered(u, o) <==> RL.Covered(t, o);
  }

  lemma SameSorted(r: R.Receiver, t: R.Receiver)
    requires Sorted(r) && t.head == r.head && t.data == r.data
    ensures Sorted(t)
  {
  }

  lemma Shrinks(r: R.Receiver)
    requires R.FillsFit(r) && Sorted(r) && R.Available(r) && |r.readers| == 1 && !R.Full(r) && !R.Full(R.FillFront(r))
    ensures |R.FillFront(r).data| < |r.data|
    ensures R.Step(r) == R.FillFront(r)
  {
    assert R.FillFront(r).data.Keys == r.data.Keys - {r.head};
  }

  lemma CompletedOne(r: R.Receiver, u: R.Receiver)
    requires |r.readers| == 1 && |u.readers| == 1 && u.posted == r.posted && R.Full(u)
    requires u.readers[0] == r.readers[0].(fill := u.readers[0].fill)
    requires r.readers[0].fill <= u.readers[0].fill && |u.readers[0].fill| == |r.readers[0].fill| + u.head - r.head
    ensures ServesOne(r, R.Complete(u))
  {
    assert u.readers[1..] == [];
  }

  lemma StepCompletes(r: R.Receiver)
    requires R.FillsFit(r) && R.Available(r) && |r.readers| == 1 && !R.Full(r) && R.Full(R.FillFront(r))
    ensures R.Step(r) == R.Complete(R.FillFront(r))
  {
    hide R.Pulled, R.AfterPull, R.Complete;
  }

  lemma OpenOne(r: R.Receiver, u: R.Receiver)
    requires R.FillsFit(r) && R.Available(r) && |r.readers| == 1 && !R.Full(r) && u == R.FillFront(r) && !R.Full(u)
    ensures R.Step(r) == u
  {
  }

  lemma ServesOn(r: R.Receiver, u: R.Receiver, t: R.Receiver)
    requires |r.readers| == 1 && |u.readers| == 1 && u.posted == r.posted
    requires u.readers[0] == r.readers[0].(fill := u.readers[0].fill)
    requires r.readers[0].fill <= u.readers[0].fill && |u.readers[0].fill| == |r.readers[0].fill| + u.head - r.head
    requires ServesOne(u, t)
    ensures ServesOne(r, t)
  {
  }

  // ---------------------------------------------------------------- readable

  /** A receiver of a linked end, as every run leaves it. */
  lemma LinkedReceiver(v: System, cfg: Config)
    requires Reached(v, cfg) && v.a.node.conn.status == C.Linked
    ensures ChannelRuns.Ready(v, cfg) && v.ba.receiverOpen && R.FillsFit(v.a.node.ist) && Sorted(v.a.node.ist)
    ensures v.a.node.ist.head <= |v.ba.written| && RL.Delivered(v.a.node.ist) == v.ba.written[..v.a.node.ist.head]
    ensures RL.Quiet(v.a.node.ist) && RL.ReaderInv(v.a.node.ist, cfg)
    ensures v.a.node.ist.readers == [] ==> RL.IsRun(v.a.node.ist, R.Readable(v.a.node.ist))
    ensures v.a.node.ist.readers != [] ==> R.Readable(v.a.node.ist) == 0
  {
    hide Reached, SysInv, RL.Delivered, RL.ReaderInv, RL.Quiet, RL.IsRun, Sorted, L.TailOk;
    ReachedInv(v, cfg);
    NodeReady(v, cfg);
    OpenEnd(v, cfg);
    SwapReached(v, cfg);
    Reassembly(Swap(v), cfg);
    SortedOf(v.a.node.ist);
    ReadableIsExact(Swap(v), cfg);
  }

  lemma SortedOf(r: R.Receiver)
    requires RL.DisjointEntries(r.data) && forall k :: k in r.data ==> r.head <= k
    ensures Sorted(r)
  {
  }

  lemma OpenEnd(v: System, cfg: Config)
    requires SysInv(v, cfg) && v.a.node.conn.status == C.Linked
    ensures v.ab.senderOpen && v.ba.receiverOpen && R.FillsFit(v.a.node.ist)
    ensures RL.Quiet(v.a.node.ist) && RL.ReaderInv(v.a.node.ist, cfg)
  {
    hide Pact, L.SharedPart, L.SenderPart, L.ClosedPart, L.ReasmOk, PacketsKnown, CL.Book;
  }

  lemma GotBytes(r: R.Receiver, t: R.Receiver, w: seq<byte>)
    requires r.readers == [] && t.readers == [] && |t.posted| == |r.posted| + 1 && t.posted[..|r.posted|] == r.posted
    requires r.head <= t.head <= |w| && RL.Delivered(r) == w[..r.head] && RL.Delivered(t) == w[..t.head]
    ensures t.posted[|r.posted|].bytes == w[r.head..t.head]
  {
    RL.ReturnedSnoc(r.posted, t.posted[|r.posted|]);
    assert t.posted == r.posted + [t.posted[|r.posted|]];
    assert w[..t.head] == w[..r.head] + w[r.head..t.head];
    assert RL.Delivered(t) == RL.Delivered(r) + t.posted[|r.posted|].bytes;
  }

  lemma WaitingBytes(r: R.Receiver, t: R.Receiver, w: seq<byte>)
    requires r.readers == [] && |t.readers| == 1 && t.posted == r.posted
    requires r.head <= t.head <= |w| && RL.Delivered(r) == w[..r.head] && RL.Delivered(t) == w[..t.head]
    ensures t.readers[0].fill == w[r.head..t.head]
  {
    assert t.readers[1..] == [];
    assert RL.Filled(t.readers) == t.readers[0].fill;
    assert w[..t.head] == w[..r.head] + w[r.head..t.head];
    assert RL.Delivered(t) == RL.Delivered(r) + t.readers[0].fill;
  }

  /** A quiet receiver whose read is still open has run out of bytes. */
  lemma RunsOut(t: R.Receiver)
    requires Sorted(t) && RL.Quiet(t) && t.readers != []
    ensures !RL.Covered(t, t.head)
  {
  }

  lemma SameCover(r: R.Receiver, s: R.Receiver)
    requires s.data == r.data && s.head == r.head
    ensures forall o: nat :: RL.Covered(s, o) <==> RL.Covered(r, o)
  {
  }

  /** A read alone in the queue gets what is there, up to its size. */
  lemma AloneServed(r: R.Receiver, k: nat, size: nat, id: nat, w: seq<byte>)
    requires R.FillsFit(r) && Sorted(r) && r.readers == [] && size > 0 && RL.IsRun(r, k)
    requires var t := R.Append(r, size, id);
             && Sorted(t) && RL.Quiet(t) && t.head <= |w| && RL.Delivered(t) == w[..t.head]
    requires r.head <= |w| && RL.Delivered(r) == w[..r.head]
    ensures var t := R.Append(r, size, id);
            if size <= k then
              && r.head + size <= |w| && t.readers == []
              && t.posted == r.posted + [R.ReadPost(id, Success, w[r.head..r.head + size])]
            else
              && r.head + k <= |w| && t.posted == r.posted
              && t.readers == [R.Reader(size, w[r.head..r.head + k], id)]
  {
    hide R.Transmit, RL.Delivered, RL.Quiet, RL.Covered, Sorted;
    var asked := r.(readers := [R.Reader(size, [], id)]);
    assert r.readers + [R.Reader(size, [], id)] == asked.readers;
    SameSorted(r, asked);
    SameCover(r, asked);
    OneRead(asked);
    var t := R.Append(r, size, id);
    assert t == R.Transmit(asked);
    assert t.head <= r.head + k;
    if t.readers == [] {
      GotBytes(r, t, w);
    } else {
      RunsOut(t);
      WaitingBytes(r, t, w);
    }
  }

  /**
   * In every run: `readable` is 0 unless the end is linked and no read waits. Then a read of no more bytes than that
   * completes at once, with the next bytes of the stream; a longer one takes all of them and waits for the rest.
   */
  lemma ReadableIsServed(v: System, size: nat, id: nat, cfg: Config)
    requires Reached(v, cfg) && size > 0
    ensures ChannelRuns.Ready(v, cfg)
    ensures v.a.node.conn.status != C.Linked || v.a.node.ist.readers != [] ==> Channel.Readable(v.a.node, cfg) == 0
    ensures v.a.node.conn.status == C.Linked && v.a.node.ist.readers == [] ==>
              var r := v.a.node.ist;
              var t := StepA(v, CallRead(size, id), cfg).a.node.ist;
              var n := Channel.Readable(v.a.node, cfg);
              && r.head + Min(size, n) <= |v.ba.written|
              && var bytes := v.ba.written[r.head..r.head + Min(size, n)];
              if size <= n then t.readers == [] && t.posted == r.posted + [R.ReadPost(id, Success, bytes)]
              else t.posted == r.posted && t.readers == [R.Reader(size, bytes, id)]
  {
    hide Reached, SysInv, R.Append, RL.Delivered, RL.Quiet, RL.ReaderInv, Sorted, RL.IsRun, S.Sound;
    ReachedInv(v, cfg);
    NodeReady(v, cfg);
    if v.a.node.conn.status == C.Linked {
      LinkedReceiver(v, cfg);
      if v.a.node.ist.readers == [] {
        var w := StepA(v, CallRead(size, id), cfg);
        StepReached(v, CallRead(size, id), cfg);
        LinkedReceiver(w, cfg);
        AloneServed(v.a.node.ist, R.Readable(v.a.node.ist), size, id, v.ba.written);
      }
    }
  }

  // ---------------------------------------------------------------- what is acknowledged

  /**
   * In every run, an end that accepts, connects or is linked, before a packet of its peer and after it, has all fragments of
   * the packet to acknowledge besides those it had, and no others.
   */
  lemma FragmentsAreAcknowledged(v: System, p: Packet, now: nat, cfg: Config)
    requires Reached(v, cfg) && p in v.b.sent && C.Admits(v.a.node.conn, p.pin)
    ensures ChannelRuns.Ready(v, cfg)
    ensures var m := StepA(v, Deliver(p, now), cfg).a.node;
            C.Status.Accepting.Rank() <= v.a.node.conn.status.Rank() && m.conn.status.Rank() <= C.Status.Linked.Rank() ==>
              forall h :: h in m.ist.acks <==> h in v.a.node.ist.acks || exists d :: Move(h, d) in p.sections
  {
    hide Reached, SysInv, Feed, TrackAll, L.HeardAll;
    ReachedInv(v, cfg);
    NodeReady(v, cfg);
    DeliveryPact(v, p, now, cfg);
    if C.Status.Accepting.Rank() <= v.a.node.conn.status.Rank() <= C.Status.Linked.Rank() {
      NoneRefused(v, p, cfg);
      FeedAcks(v.a.node, p, now, cfg);
    }
  }

  lemma FeedAcks(n: Node, p: Packet, now: nat, cfg: Config)
    requires NodeOk(n, cfg) && C.Admits(n.conn, p.pin) && R.Scan(n.ist, p.sections, cfg).alarms == n.ist.alarms
    requires C.Status.Accepting.Rank() <= n.conn.status.Rank() <= C.Status.Linked.Rank()
    ensures var m := Feed(n, p, now, cfg);
            m.conn.status.Rank() <= C.Status.Linked.Rank() ==>
              forall h :: h in m.ist.acks <==> h in n.ist.acks || exists d :: Move(h, d) in p.sections
  {
    hide R.Scan, R.Transmit, C.Parse, S.Parse, S.Error, R.Error, S.Sound;
    RL.ScanAcks(n.ist, p.sections, cfg);
    R.ScanKeepsFit(n.ist, p.sections, cfg);
    RL.TransmitAcks(R.Scan(n.ist, p.sections, cfg));
  }

  lemma NoneRefused(v: System, p: Packet, cfg: Config)
    requires SysInv(v, cfg) && p in v.b.sent && v.a.node.conn.status.Rank() <= C.Status.Linked.Rank()
    ensures R.FillsFit(v.a.node.ist) && R.Scan(v.a.node.ist, p.sections, cfg).alarms == v.a.node.ist.alarms
  {
    hide Pact, L.LinkInv, NodeOk, CL.Book;
    L.ReceiverHearsAll(v.b.node.ost, v.a.node.ist, v.ba, p.sections, cfg);
  }

  /**
   * A tear in a packet comes last: an end that is not leaving yet first serves its reads and settles its writes from the
   * whole packet, and only then, if it is leaving, answers the rest with connection_aborted.
   */
  lemma TearsComeLast(n: Node, p: Packet, now: nat, cfg: Config)
    requires NodeOk(n, cfg) && C.Admits(n.conn, p.pin)
    requires C.Status.Accepting.Rank() <= n.conn.status.Rank() <= C.Status.Linked.Rank()
    ensures var m := Feed(n, p, now, cfg);
            var r, s := R.Parse(n.ist, p.sections, cfg), S.Parse(n.ost, p.sections);
            && r.posted <= m.ist.posted && s.posted <= m.ost.posted
            && (forall i :: |r.posted| <= i < |m.ist.posted| ==> m.ist.posted[i].code == ConnectionAborted)
            && (forall i :: |s.posted| <= i < |m.ost.posted| ==> m.ost.posted[i].code == ConnectionAborted)
            && (m.conn.status == C.Tearing ==> m.ist.readers == [] && m.ost.writers == [])
            && (m.conn.status != C.Tearing ==> m.ist == r && m.ost == s)
  {
    hide R.Parse, S.Parse, C.ParseAll, S.Sound, R.Error, S.Error;
    var r, s := R.Parse(n.ist, p.sections, cfg), S.Parse(n.ost, p.sections);
    PhaseHeardIs(n.conn.(seen := At(now)), p.pin, p.sections, now, cfg);
    RestAborted(r, s);
  }

  lemma {:induction false} PhaseHeardIs(c: C.Connector, pin: nat, secs: seq<Section>, now: nat, cfg: Config)
    requires c.status != C.Shutting
    ensures C.ParseAll(c, pin, secs, now, cfg).status != C.Shutting
    decreases |secs|
  {
    if secs != [] {
      PhaseHeardIs(C.ParseSection(c, pin, secs[0], now, cfg), pin, secs[1..], now, cfg);
    }
  }

  lemma RestAborted(r: R.Receiver, s: S.Sender)
    ensures var t := R.Error(r, ConnectionAborted);
            && r.posted <= t.posted && t.readers == []
            && forall i :: |r.posted| <= i < |t.posted| ==> t.posted[i].code == ConnectionAborted
    ensures var u := S.Error(s, ConnectionAborted);
            && s.posted <= u.posted && u.writers == []
            && forall i :: |s.posted| <= i < |u.posted| ==> u.posted[i].code == ConnectionAborted
  {
    hide R.Aborts, S.Refunds;
    RL.ErrorLength(r, ConnectionAborted);
    var t := R.Error(r, ConnectionAborted);
    forall i | |r.posted| <= i < |t.posted| ensures t.posted[i].code == ConnectionAborted {
      RL.ErrorAborts(r, ConnectionAborted, i - |r.posted|);
    }
    SL.RefundsLength(s.writers, S.Cursor(s), ConnectionAborted);
    var u := S.Error(s, ConnectionAborted);
    forall i | |s.posted| <= i < |u.posted| ensures u.posted[i].code == ConnectionAborted {
      SL.RefundAt(s, ConnectionAborted, i - |s.posted|);
    }
  }

  // ---------------------------------------------------------------- writable

  /** A sender of a linked end, as every run leaves it. */
  lemma LinkedSender(v: System, cfg: Config)
    requires Reached(v, cfg) && v.a.node.conn.status == C.Linked
    ensures ChannelRuns.Ready(v, cfg) && v.a.node.ost.tail == |v.ab.written| && v.a.node.ost.head == v.ab.cut
  {
    hide Reached, Pact, L.SharedPart, L.ReceiverPart, L.ClosedPart, PacketsKnown, CL.Book;
    ReachedInv(v, cfg);
  }

  /**
   * In every run: a number of bytes is within `writable` exactly if the end is linked, the bytes all lie below the credit,
   * and the bytes not yet cut stay within the send buffer. A linked end takes a write exactly if these bytes stay below the
   * send buffer: the write that fills it to the last byte is refused although `writable` may allow it.
   */
  lemma WritableIsTaken(v: System, buffer: seq<byte>, id: nat, cfg: Config)
    requires Reached(v, cfg) && buffer != []
    ensures ChannelRuns.Ready(v, cfg)
    ensures var total := |v.ab.written| + |buffer|;
            |buffer| <= Channel.Writable(v.a.node, cfg) <==>
              v.a.node.conn.status == C.Linked && total <= v.a.node.ost.range && total - v.ab.cut <= cfg.sendBuffer
    ensures v.a.node.conn.status == C.Linked ==>
              var w := StepA(v, CallWrite(buffer, id), cfg);
              if |v.ab.written| + |buffer| - v.ab.cut < cfg.sendBuffer then
                && w.ab.written == v.ab.written + buffer
                && w.ab.accepted == v.ab.accepted + [SL.Claim(id, |buffer|)]
                && w.a.node.ost.posted == v.a.node.ost.posted && w.a.node.ost.alarms == v.a.node.ost.alarms
              else
                && w.ab == v.ab
                && w.a.node.ost.posted == v.a.node.ost.posted + [S.WritePost(id, NoBufferSpace, 0)]
                && w.a.node.ost.alarms == v.a.node.ost.alarms + [NoBufferSpace]
  {
    hide Reached, SysInv;
    ReachedInv(v, cfg);
    NodeReady(v, cfg);
    if v.a.node.conn.status == C.Linked {
      LinkedSender(v, cfg);
    }
  }

  // ---------------------------------------------------------------- refusals

  /** The code a `read` or `write` gets outside the linked phase. */
  predicate TurnedAwayWith(s: C.Status, code: Code) {
    if s == C.Neither || s == C.Initial then code == NotConnected
    else if s == C.Accepting || s == C.Connecting then code == TryAgain
    else code == BadDescriptor
  }

  /** Outside the linked phase a `read` or `write` is turned away with the code of the phase, and changes nothing else. */
  lemma OnlyLinkedEndsServe(n: Node, buffer: seq<byte>, size: nat, id: nat, cfg: Config) returns (code: Code)
    requires NodeOk(n, cfg) && n.conn.status != C.Linked
    ensures TurnedAwayWith(n.conn.status, code)
    ensures Channel.Read(n, size, id, cfg) == n.(declined := n.declined + [Declined(id, code)])
    ensures Channel.Write(n, buffer, id, cfg) == n.(declined := n.declined + [Declined(id, code)])
    ensures Channel.Readable(n, cfg) == Channel.Writable(n, cfg) == 0
  {
    code := TurnAway(n.conn.status);
  }

  /** A second `connect` or `accept` is turned away: by the channel always in the same way, by the connector by its phase. */
  lemma OnlyFreshEndsJoin(n: Node, id: nat, pin: nat, now: nat, cfg: Config) returns (calling: Code, listening: Code)
    requires n.conn.status != C.Initial
    ensures Channel.Connect(n, id, pin, now, cfg) == n.(declined := n.declined + [Declined(id, NoPermission)])
    ensures Channel.Accept(n, id, pin, now, cfg) == n.(declined := n.declined + [Declined(id, NoPermission)])
    ensures C.Connect(n.conn, id, pin, now, cfg) == n.conn.(posted := n.conn.posted + [C.Post(C.Handler(id), calling)])
    ensures C.Accept(n.conn, id, pin, now, cfg) == n.conn.(posted := n.conn.posted + [C.Post(C.Handler(id), listening)])
    ensures calling == InProgress <==> n.conn.status == C.Connecting
    ensures listening == InProgress <==> n.conn.status == C.Accepting
    ensures calling == AlreadyConnected <==> n.conn.status == C.Linked
    ensures listening == AlreadyConnected <==> n.conn.status == C.Linked
    ensures calling in {InProgress, AlreadyConnected, NoPermission} && listening in {InProgress, AlreadyConnected, NoPermission}
  {
    var s := n.conn.status;
    calling := if s == C.Connecting then InProgress else if s == C.Linked then AlreadyConnected else NoPermission;
    listening := if s == C.Accepting then InProgress else if s == C.Linked then AlreadyConnected else NoPermission;
  }
}
