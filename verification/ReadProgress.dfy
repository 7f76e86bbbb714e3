/** When a waiting read can be completed: exactly if it asks for no more than the receive buffer holds. */
module ReadProgress {
  import opened Protocol
  import opened Channel
  import opened ChannelRuns
  import opened ChannelLaws
  import opened ChannelTheorems
  import opened ChannelProgress
  import opened Handshake
  import C = Connecting
  import S = Sending
  import R = Receiving
  import RL = ReceiverLaws
  import CL = ConnectorLaws
  import L = StreamLink

  // ---------------------------------------------------------------- reads are served in turn

  /** From r to t, both open: the front read of r still waits, or was the first to be completed, with all it asked for. */
  ghost predicate InTurn(r: R.Receiver, t: R.Receiver) {
    && r.posted <= t.posted
    && (r.readers != [] ==>
          if |t.posted| == |r.posted| then
            t.readers != [] && t.readers[0].size == r.readers[0].size && t.readers[0].id == r.readers[0].id
          else Completed(r, t))
  }

  /** The front read of r has been completed by t. */
  ghost predicate Completed(r: R.Receiver, t: R.Receiver)
    requires r.readers != []
  {
    && |r.posted| < |t.posted|
    && var p := t.posted[|r.posted|];
       p.id == r.readers[0].id && p.code == Success && |p.bytes| == r.readers[0].size
  }

  lemma InTurnOn(r: R.Receiver, t: R.Receiver, u: R.Receiver)
    requires InTurn(r, t) && InTurn(t, u)
    ensures InTurn(r, u)
  {
  }

  lemma StepInTurn(r: R.Receiver)
    requires R.FillsFit(r) && R.Available(r) && r.readers != []
    ensures InTurn(r, R.Step(r))
  {
    hide R.AfterPull, R.Available;
    if !R.Full(r) {
      PostedFrame(r);
    }
  }

  lemma PostedFrame(r: R.Receiver)
    requires R.Available(r) && r.readers != [] && |r.readers[0].fill| < r.readers[0].size
    ensures R.FillFront(r).posted == r.posted
  {
  }

  lemma {:induction false} TransmitInTurn(r: R.Receiver)
    requires R.FillsFit(r)
    ensures InTurn(r, R.Transmit(r))
    decreases |r.readers|, |r.data|
  {
    hide R.FillsFit, InTurn, R.Step;
    R.TransmitUnfolds(r);
    SelfInTurn(r);
    if R.Available(r) && r.readers != [] {
      StepInTurn(r);
      ChannelProgress.StepEnds(r);
      TransmitInTurn(R.Step(r));
      InTurnOn(r, R.Step(r), R.Transmit(R.Step(r)));
    }
  }

  lemma SelfInTurn(r: R.Receiver)
    ensures InTurn(r, r)
  {
  }

  lemma ParseInTurn(r: R.Receiver, secs: seq<Section>, cfg: Config)
    requires R.FillsFit(r)
    ensures InTurn(r, R.Parse(r, secs, cfg))
  {
    hide R.Transmit, R.Scan;
    R.ScanKeepsFit(r, secs, cfg);
    R.ScanKeepsReaders(r, secs, cfg);
    TransmitInTurn(R.Scan(r, secs, cfg));
  }

  lemma AppendInTurn(r: R.Receiver, size: nat, id: nat)
    requires R.FillsFit(r)
    ensures InTurn(r, R.Append(r, size, id))
  {
    hide R.Transmit;
    TransmitInTurn(r.(readers := r.readers + [R.Reader(size, [], id)]));
  }

  // ---------------------------------------------------------------- one event at the reading end

  /** At end `a`: while the receiving half stays open, reads are served in turn; what was posted stays posted. */
  lemma TurnKept(s: System, e: Event, cfg: Config)
    requires ChannelRuns.Ready(s, cfg)
    ensures s.a.node.ist.posted <= StepA(s, e, cfg).a.node.ist.posted
    ensures StepA(s, e, cfg).ba.receiverOpen ==> s.ba.receiverOpen && InTurn(s.a.node.ist, StepA(s, e, cfg).a.node.ist)
    ensures StepA(s, e, cfg).ab.receiverOpen == s.ab.receiverOpen
  {
    hide InTurn;
    SelfInTurn(s.a.node.ist);
    match e
    case Deliver(p, now) => HeardInTurn(s, p, now, cfg);
    case Emit(now, repeat, stale) => SentInTurn(s, now, repeat, stale, cfg);
    case CallRead(size, id) => ReadInTurn(s, size, id, cfg);
    case _ => CalledInTurn(s, e, cfg);
  }

  lemma Prefixes(r: R.Receiver, t: R.Receiver)
    requires InTurn(r, t)
    ensures r.posted <= t.posted
    ensures forall code :: r.posted <= R.Error(t, code).posted
  {
  }

  lemma HeardInTurn(s: System, p: Packet, now: nat, cfg: Config)
    requires ChannelRuns.Ready(s, cfg)
    ensures var t := StepA(s, Deliver(p, now), cfg);
            && s.a.node.ist.posted <= t.a.node.ist.posted
            && (t.ba.receiverOpen ==> s.ba.receiverOpen && InTurn(s.a.node.ist, t.a.node.ist))
            && t.ab.receiverOpen == s.ab.receiverOpen
  {
    hide R.Parse, S.Parse, C.Parse, C.Admits, TrackAll, InTurn, S.Sound, C.JobsOk, R.FillsFit, L.HeardAll, S.Error, R.Error;
    SelfInTurn(s.a.node.ist);
    ParseInTurn(s.a.node.ist, p.sections, cfg);
    Prefixes(s.a.node.ist, s.a.node.ist);
    Prefixes(s.a.node.ist, R.Parse(s.a.node.ist, p.sections, cfg));
  }

  lemma ReadInTurn(s: System, size: nat, id: nat, cfg: Config)
    requires ChannelRuns.Ready(s, cfg)
    ensures var t := StepA(s, CallRead(size, id), cfg);
            && s.a.node.ist.posted <= t.a.node.ist.posted
            && (t.ba.receiverOpen ==> s.ba.receiverOpen && InTurn(s.a.node.ist, t.a.node.ist))
            && t.ab.receiverOpen == s.ab.receiverOpen
  {
    hide R.Append, InTurn, S.Sound, C.JobsOk, R.FillsFit;
    SelfInTurn(s.a.node.ist);
    AppendInTurn(s.a.node.ist, size, id);
    Prefixes(s.a.node.ist, s.a.node.ist);
    Prefixes(s.a.node.ist, R.Append(s.a.node.ist, size, id));
  }

  lemma SentInTurn(s: System, now: nat, repeat: nat, stale: seq<Section>, cfg: Config)
    requires ChannelRuns.Ready(s, cfg)
    ensures var t := StepA(s, Emit(now, repeat, stale), cfg);
            && s.a.node.ist.posted <= t.a.node.ist.posted
            && (t.ba.receiverOpen ==> s.ba.receiverOpen && InTurn(s.a.node.ist, t.a.node.ist))
            && t.ab.receiverOpen == s.ab.receiverOpen
  {
    hide InTurn, NodeOk, Produce, TrackJobs, Join, Sent;
    var n := s.a.node;
    SelfInTurn(n.ist);
    ProducedReads(n, now, repeat, cfg);
    SameInTurn(n.ist, Produce(n, now, repeat, cfg).node.ist);
  }

  lemma ProducedReads(n: Node, now: nat, repeat: nat, cfg: Config)
    requires NodeOk(n, cfg)
    ensures var m := Produce(n, now, repeat, cfg).node;
            && n.ist.posted <= m.ist.posted
            && (n.conn.status != C.Finished ==> m.ist.posted == n.ist.posted && m.ist.readers == n.ist.readers)
  {
    hide C.Imbue, R.Imbue, S.Imbue, C.JobsOk, R.FillsFit;
    if n.conn.status != C.Finished {
      var b1 := C.Imbue(n.conn, BodyRoom(cfg), now, repeat, cfg);
      RL.ImbueFrame(n.ist, b1.room, now, repeat);
    }
  }

  lemma SameInTurn(r: R.Receiver, t: R.Receiver)
    ensures t.posted == r.posted && t.readers == r.readers ==> InTurn(r, t)
  {
  }

  lemma CalledInTurn(s: System, e: Event, cfg: Config)
    requires ChannelRuns.Ready(s, cfg) && !e.Deliver? && !e.Emit? && !e.CallRead?
    ensures var t := StepA(s, e, cfg);
            && s.a.node.ist.posted <= t.a.node.ist.posted
            && (t.ba.receiverOpen ==> s.ba.receiverOpen && t.a.node.ist == s.a.node.ist)
            && t.ab.receiverOpen == s.ab.receiverOpen
  {
    hide S.Append, C.Connect, C.Accept, C.Shutdown, Track, S.Sound, R.FillsFit;
  }

  // ---------------------------------------------------------------- runs

  lemma {:induction false} RunInTurn(v: System, turns: seq<Turn>, cfg: Config)
    requires LegalRun(v, turns, cfg)
    ensures var w := Exec(v, turns, cfg);
            w.ab.receiverOpen ==> v.ab.receiverOpen && InTurn(v.b.node.ist, w.b.node.ist)
    decreases |turns|
  {
    hide InTurn, StepA, Legal, ChannelRuns.Ready;
    SelfInTurn(v.b.node.ist);
    if turns != [] {
      var u := Take(v, turns[0], cfg);
      TakenInTurn(v, turns[0], cfg);
      RunInTurn(u, turns[1..], cfg);
      var w := Exec(v, turns, cfg);
      if w.ab.receiverOpen {
        InTurnOn(v.b.node.ist, u.b.node.ist, w.b.node.ist);
      }
    }
  }

  lemma TakenInTurn(v: System, turn: Turn, cfg: Config)
    requires ChannelRuns.Ready(View(v, turn.atA), cfg)
    ensures var u := Take(v, turn, cfg);
            && v.b.node.ist.posted <= u.b.node.ist.posted
            && (u.ab.receiverOpen ==> v.ab.receiverOpen && InTurn(v.b.node.ist, u.b.node.ist))
            && (turn.atA ==> u.b == v.b && u.ab.receiverOpen == v.ab.receiverOpen)
  {
    hide InTurn, StepA, ChannelRuns.Ready;
    SelfInTurn(v.b.node.ist);
    TurnKept(View(v, turn.atA), turn.event, cfg);
    FarEndStays(View(v, turn.atA), turn.event, cfg);
  }

  lemma FollowsInTurn(v: System, w: System, cfg: Config)
    requires Follows(v, w, cfg) && w.ab.receiverOpen
    ensures InTurn(v.b.node.ist, w.b.node.ist)
  {
    hide InTurn, LegalRun, Exec;
    var turns :| LegalRun(v, turns, cfg) && w == Exec(v, turns, cfg);
    RunInTurn(v, turns, cfg);
  }

  // ---------------------------------------------------------------- a read that asks for too much

  lemma {:induction false} ReturnedGrows(a: seq<R.ReadPost>, b: seq<R.ReadPost>)
    requires a <= b
    ensures |RL.Returned(a)| <= |RL.Returned(b)|
    ensures |a| < |b| ==> |RL.Returned(a)| + |b[|a|].bytes| <= |RL.Returned(b)|
    decreases |b|
  {
    if |a| < |b| {
      var c := b[..|b| - 1];
      assert b == c + [b[|b| - 1]];
      RL.ReturnedSnoc(c, b[|b| - 1]);
      ReturnedGrows(a, c);
    } else {
      assert a == b;
    }
  }

  /** What is delivered within the old edge is too little for an oversized front read. */
  lemma TooLittle(r: R.Receiver, t: R.Receiver, cfg: Config)
    requires InTurn(r, t) && r.readers != [] && r.readers[0].size > cfg.receiveBuffer
    requires |RL.Delivered(t)| <= r.edge == cfg.receiveBuffer + |RL.Returned(r.posted)|
    ensures t.posted == r.posted && t.readers != [] && t.readers[0].size == r.readers[0].size
    ensures |t.readers[0].fill| <= cfg.receiveBuffer
  {
    ReturnedGrows(r.posted, t.posted);
    DeliveredParts(t);
    hide RL.Delivered, RL.Returned;
  }

  lemma DeliveredParts(t: R.Receiver)
    ensures |RL.Delivered(t)| >= |RL.Returned(t.posted)| + if t.readers == [] then 0 else |t.readers[0].fill|
  {
  }

  /** Since r the front read still waits, or it has been turned back with no more than the buffer's worth. */
  ghost predicate Stalled(r: R.Receiver, t: R.Receiver, isOpen: bool, cfg: Config)
    requires r.readers != []
  {
    && r.posted <= t.posted
    && if |t.posted| == |r.posted| then isOpen && t.readers != [] && t.readers[0].size == r.readers[0].size
       else |t.posted[|r.posted|].bytes| <= cfg.receiveBuffer
  }

  lemma ErrorStalls(r: R.Receiver, t: R.Receiver, code: Code, cfg: Config)
    requires r.readers != [] && t.posted == r.posted && t.readers != [] && |t.readers[0].fill| <= cfg.receiveBuffer
    ensures Stalled(r, R.Error(t, code), false, cfg)
  {
  }

  /** What the invariant says of an open receiving half. */
  lemma EdgeBound(o: S.Sender, i: R.Receiver, h: L.History, cfg: Config)
    requires L.LinkInv(o, i, h, cfg) && h.receiverOpen
    ensures R.FillsFit(i) && |RL.Delivered(i)| <= h.cut <= i.edge
    ensures i.edge == cfg.receiveBuffer + |RL.Returned(i.posted)|
  {
    hide L.SenderPart, L.ClosedPart, L.WireOk, L.EchoesOk;
    RL.Fits(i, cfg);
  }

  lemma HeardBound(s: System, p: Packet, cfg: Config)
    requires SysInv(s, cfg) && p in s.b.sent && s.ba.receiverOpen
    ensures R.FillsFit(s.a.node.ist)
    ensures |RL.Delivered(R.Parse(s.a.node.ist, p.sections, cfg))| <= s.ba.cut <= s.a.node.ist.edge
  {
    hide Pact, L.LinkInv, NodeOk, CL.Book, RL.Delivered, R.Parse;
    L.ReceiverHearsAll(s.b.node.ost, s.a.node.ist, s.ba, p.sections, cfg);
    EdgeBound(s.b.node.ost, s.a.node.ist, s.ba, cfg);
    EdgeBound(s.b.node.ost, R.Parse(s.a.node.ist, p.sections, cfg), s.ba.(got := L.HeardAll(s.ba.got, p.sections)), cfg);
  }

  /** An oversized front read at end `a` is stalled through any event there. */
  lemma StallKept(s: System, e: Event, cfg: Config)
    requires SysInv(s, cfg) && ChannelRuns.Ready(s, cfg) && Legal(s, e, cfg) && s.ba.receiverOpen
    requires s.a.node.ist.readers != [] && s.a.node.ist.readers[0].size > cfg.receiveBuffer
    ensures var t := StepA(s, e, cfg); Stalled(s.a.node.ist, t.a.node.ist, t.ba.receiverOpen, cfg)
  {
    hide SysInv, InTurn, RL.Delivered, Stalled, Legal;
    var t := StepA(s, e, cfg);
    OpenBound(s, cfg);
    SelfInTurn(s.a.node.ist);
    TooLittle(s.a.node.ist, s.a.node.ist, cfg);
    if t.ba.receiverOpen {
      StepKeeps(s, e, cfg);
      TurnKept(s, e, cfg);
      CutStays(s, e, cfg);
      OpenBound(t, cfg);
      TooLittle(s.a.node.ist, t.a.node.ist, cfg);
      WaitStalls(s.a.node.ist, t.a.node.ist, cfg);
    } else {
      ClosingStalls(s, e, cfg);
    }
    hide StepA, ChannelRuns.Ready;
  }

  lemma WaitStalls(r: R.Receiver, t: R.Receiver, cfg: Config)
    requires r.readers != [] && t.posted == r.posted && t.readers != [] && t.readers[0].size == r.readers[0].size
    ensures Stalled(r, t, true, cfg)
  {
  }

  lemma OpenBound(s: System, cfg: Config)
    requires SysInv(s, cfg) && s.ba.receiverOpen
    ensures R.FillsFit(s.a.node.ist) && |RL.Delivered(s.a.node.ist)| <= s.ba.cut <= s.a.node.ist.edge
    ensures s.a.node.ist.edge == cfg.receiveBuffer + |RL.Returned(s.a.node.ist.posted)|
  {
    hide Pact, SideOk, L.LinkInv, RL.Delivered;
    EdgeBound(s.b.node.ost, s.a.node.ist, s.ba, cfg);
  }

  /** Events at the receiving end cut nothing for it. */
  lemma CutStays(s: System, e: Event, cfg: Config)
    requires ChannelRuns.Ready(s, cfg)
    ensures StepA(s, e, cfg).ba.cut == s.ba.cut
  {
    hide S.Sound, R.FillsFit, C.JobsOk, S.Append, R.Append, S.Error, R.Error, S.Parse, R.Parse, S.Imbue, R.Imbue, C.Imbue, C.Parse,
         TrackAll, TrackJobs, L.AfterWrite, L.HeardAll, Join, Sent;
  }

  /** The event that closes the receiving half turns the read back. */
  lemma ClosingStalls(s: System, e: Event, cfg: Config)
    requires SysInv(s, cfg) && ChannelRuns.Ready(s, cfg) && Legal(s, e, cfg) && s.ba.receiverOpen
    requires s.a.node.ist.readers != [] && s.a.node.ist.readers[0].size > cfg.receiveBuffer
    requires |s.a.node.ist.readers[0].fill| <= cfg.receiveBuffer && !StepA(s, e, cfg).ba.receiverOpen
    ensures Stalled(s.a.node.ist, StepA(s, e, cfg).a.node.ist, false, cfg)
  {
    hide SysInv, Stalled, InTurn, RL.Delivered;
    var r := s.a.node.ist;
    match e
    case Deliver(p, now) =>
      HeardBound(s, p, cfg);
      OpenBound(s, cfg);
      ParseInTurn(r, p.sections, cfg);
      TooLittle(r, R.Parse(r, p.sections, cfg), cfg);
      ErrorStalls(r, R.Parse(r, p.sections, cfg), ConnectionAborted, cfg);
      ErrorStalls(r, r, ConnectionAborted, cfg);
      LeavesHearing(s, p, now, cfg);
    case Emit(now, repeat, stale) =>
      ErrorStalls(r, r, ConnectionAborted, cfg);
      LeavesSending(s, now, repeat, stale, cfg);
    case Close(code) =>
      ErrorStalls(r, r, code, cfg);
    case _ =>
      StaysOpen(s, e, cfg);
      assert false;
  }

  lemma LeavesHearing(s: System, p: Packet, now: nat, cfg: Config)
    requires ChannelRuns.Ready(s, cfg) && s.ba.receiverOpen
    ensures var t := StepA(s, Deliver(p, now), cfg);
            !t.ba.receiverOpen ==> t.a.node.ist == R.Error(s.a.node.ist, ConnectionAborted)
                                   || t.a.node.ist == R.Error(R.Parse(s.a.node.ist, p.sections, cfg), ConnectionAborted)
  {
    hide R.Parse, S.Parse, C.Parse, C.Admits, TrackAll, S.Sound, C.JobsOk, R.FillsFit, L.HeardAll, S.Error, R.Error;
  }

  lemma LeavesSending(s: System, now: nat, repeat: nat, stale: seq<Section>, cfg: Config)
    requires ChannelRuns.Ready(s, cfg) && s.ba.receiverOpen
    ensures var t := StepA(s, Emit(now, repeat, stale), cfg);
            !t.ba.receiverOpen ==> t.a.node.ist == R.Error(s.a.node.ist, ConnectionAborted)
  {
    hide C.Imbue, R.Imbue, S.Imbue, C.JobsOk, R.FillsFit, S.Sound, TrackJobs, Join, Sent;
  }

  lemma StaysOpen(s: System, e: Event, cfg: Config)
    requires ChannelRuns.Ready(s, cfg) && s.ba.receiverOpen && !e.Deliver? && !e.Emit? && !e.Close?
    ensures StepA(s, e, cfg).ba.receiverOpen
  {
    hide S.Append, R.Append, C.Connect, C.Accept, C.Shutdown, Track, S.Sound, R.FillsFit, L.AfterWrite;
  }

  lemma {:induction false} RunStalls(r: R.Receiver, v: System, turns: seq<Turn>, cfg: Config)
    requires SysInv(v, cfg) && LegalRun(v, turns, cfg)
    requires r.readers != [] && r.readers[0].size > cfg.receiveBuffer && Stalled(r, v.b.node.ist, v.ab.receiverOpen, cfg)
    ensures var w := Exec(v, turns, cfg); Stalled(r, w.b.node.ist, w.ab.receiverOpen, cfg)
    decreases |turns|
  {
    hide SysInv, StepA, Legal, ChannelRuns.Ready, Stalled, Take;
    if turns != [] {
      TakeKeeps(v, turns[0], cfg);
      TakenStalls(r, v, turns[0], cfg);
      RunStalls(r, Take(v, turns[0], cfg), turns[1..], cfg);
    }
  }

  lemma TakenStalls(r: R.Receiver, v: System, turn: Turn, cfg: Config)
    requires SysInv(v, cfg) && ChannelRuns.Ready(View(v, turn.atA), cfg) && Legal(View(v, turn.atA), turn.event, cfg)
    requires r.readers != [] && r.readers[0].size > cfg.receiveBuffer && Stalled(r, v.b.node.ist, v.ab.receiverOpen, cfg)
    ensures var u := Take(v, turn, cfg); Stalled(r, u.b.node.ist, u.ab.receiverOpen, cfg)
  {
    hide SysInv, StepA, Legal, ChannelRuns.Ready, InTurn;
    TakenInTurn(v, turn, cfg);
    if !turn.atA && |v.b.node.ist.posted| == |r.posted| {
      Symmetric(v, cfg);
      StallKept(Swap(v), turn.event, cfg);
    }
  }

  // ---------------------------------------------------------------- a read that fits

  /** One byte more, called at end `a` when everything written so far has been cut. */
  lemma WritesOne(v: System, now: nat, cfg: Config) returns (w: System)
    requires Settled(v, now, cfg) && v.a.node.ost.queue == [] && cfg.sendBuffer > 1
    ensures Settled(w, now, cfg) && Follows(v, w, cfg) && w.b == v.b
    ensures w.a.node.ost.queue != [] && w.a.node.ost.head == v.a.node.ost.head && w.a.node.ost.range == v.a.node.ost.range
  {
    hide Reached, NodeOk, Follows, Harmless, SysInv;
    GoodReady(v, now, cfg);
    var e := CallWrite([0], 0);
    NothingWaits(v, now, cfg);
    w := StepA(v, e, cfg);
    StepReached(v, e, cfg);
    FollowsStep(v, e, cfg);
    hide Legal, ChannelRuns.Ready, L.AfterWrite;
  }

  lemma NothingWaits(v: System, now: nat, cfg: Config)
    requires Good(v, now, cfg) && v.a.node.ost.queue == []
    ensures v.a.node.ost.head == v.a.node.ost.tail
  {
    hide Good, SysInv;
    GoodInv(v, now, cfg);
    SenderSpan(v, cfg);
    NothingQueued(v.a.node.ost.queue);
  }

  /** A round with something to cut and credit for it. */
  lemma OneRound(v: System, now: nat, cfg: Config) returns (w: System)
    requires Settled(v, now, cfg) && v.a.node.ost.head < v.a.node.ost.range
    requires cfg.packetSize >= 56 && cfg.swarm > 0 && cfg.sendBuffer > 1
    ensures Settled(w, now, cfg) && Follows(v, w, cfg) && v.a.node.ost.head < w.a.node.ost.head
  {
    hide Good, ChannelProgress.Fresh, Follows;
    var u := v;
    FollowsSelf(v, cfg);
    if v.a.node.ost.queue == [] {
      u := WritesOne(v, now, cfg);
    }
    w := Round(u, now, cfg);
    FollowsOn(v, u, w, cfg);
  }

  /** While the front read waits, the sender has credit, and what it has cut is less than the read asks for. */
  lemma FrontWaits(v: System, now: nat, cfg: Config)
    requires Settled(v, now, cfg) && v.b.node.ist.readers != [] && cfg.receiveBuffer > 0
    requires v.b.node.ist.readers[0].size <= cfg.receiveBuffer
    ensures v.a.node.ost.head <= |RL.Returned(v.b.node.ist.posted)| + v.b.node.ist.readers[0].size
    ensures v.a.node.ost.head < v.a.node.ost.range
  {
    hide Good, ChannelProgress.Fresh, RL.ReaderInv, RL.Delivered, RL.Returned;
    ReceiverSpan(v, now, cfg);
    FrontFill(v.b.node.ist, cfg);
  }

  lemma {:induction false} FrontCompletes(r: R.Receiver, v: System, now: nat, cfg: Config) returns (w: System)
    requires Settled(v, now, cfg) && InTurn(r, v.b.node.ist) && r.readers != [] && r.readers[0].size <= cfg.receiveBuffer
    requires cfg.packetSize >= 56 && cfg.swarm > 0 && cfg.sendBuffer > 1 && cfg.receiveBuffer > 0
    ensures Follows(v, w, cfg) && Completed(r, w.b.node.ist)
    decreases |RL.Returned(r.posted)| + r.readers[0].size + 1 - v.a.node.ost.head
  {
    hide Good, ChannelProgress.Fresh, Follows, RL.Returned;
    if |v.b.node.ist.posted| > |r.posted| {
      FollowsSelf(v, cfg);
      return v;
    }
    FrontWaits(v, now, cfg);
    assert v.b.node.ist.posted == r.posted;
    var u := OneRound(v, now, cfg);
    StaysLinked(u, now, cfg);
    FollowsInTurn(v, u, cfg);
    InTurnOn(r, v.b.node.ist, u.b.node.ist);
    if |u.b.node.ist.posted| > |r.posted| {
      return u;
    }
    FrontWaits(u, now, cfg);
    w := FrontCompletes(r, u, now, cfg);
    FollowsOn(v, u, w, cfg);
  }

  lemma StaysLinked(v: System, now: nat, cfg: Config)
    requires Settled(v, now, cfg)
    ensures v.ab.receiverOpen
  {
    hide Good, ChannelProgress.Fresh, SysInv;
    GoodInv(v, now, cfg);
    BothOpen(v, cfg);
  }

  lemma FittingReadCompletes(v: System, now: nat, cfg: Config) returns (w: System)
    requires Good(v, now, cfg) && ChannelProgress.Fresh(v.a.node.ost, v.b.node.ist, now)
    requires v.b.node.ist.readers != [] && v.b.node.ist.readers[0].size <= cfg.receiveBuffer
    requires cfg.packetSize >= 56 && cfg.swarm > 0 && cfg.sendBuffer > 1 && cfg.receiveBuffer > 0
    ensures Follows(v, w, cfg) && Completed(v.b.node.ist, w.b.node.ist)
  {
    hide Good, ChannelProgress.Fresh, Follows, InTurn, Completed;
    var u := Round(v, now, cfg);
    StaysLinked(u, now, cfg);
    FollowsInTurn(v, u, cfg);
    w := FrontCompletes(v.b.node.ist, u, now, cfg);
    FollowsOn(v, u, w, cfg);
  }

  lemma OversizedNeverCompletes(v: System, w: System, now: nat, cfg: Config)
    requires Good(v, now, cfg) && Follows(v, w, cfg)
    requires v.b.node.ist.readers != [] && v.b.node.ist.readers[0].size > cfg.receiveBuffer
    ensures !Completed(v.b.node.ist, w.b.node.ist)
  {
    hide Good, SysInv, LegalRun, Exec;
    GoodInv(v, now, cfg);
    BothOpen(v, cfg);
    var turns :| LegalRun(v, turns, cfg) && w == Exec(v, turns, cfg);
    RunStalls(v.b.node.ist, v, turns, cfg);
  }

  /**
   * From every established connection on time (as in `EveryByteArrives`, whatever the waiting reads ask for), some legal
   * run completes the front read if and only if it asks for no more than the receive buffer holds. The run may write:
   * there need be nothing left to deliver.
   */
  lemma FrontReadCompletesIff(v: System, now: nat, cfg: Config)
    requires Reached(v, cfg) && Calm(v.a.node, now, cfg) && Calm(v.b.node, now, cfg)
    requires ChannelProgress.Fresh(v.a.node.ost, v.b.node.ist, now) && v.b.node.ist.readers != []
    requires cfg.packetSize >= 56 && cfg.swarm > 0 && cfg.sendBuffer > 1 && cfg.receiveBuffer > 0
    ensures (exists w :: Follows(v, w, cfg) && Completed(v.b.node.ist, w.b.node.ist))
            <==> v.b.node.ist.readers[0].size <= cfg.receiveBuffer
  {
    hide Reached, Calm, ChannelProgress.Fresh, Follows, Completed;
    if v.b.node.ist.readers[0].size <= cfg.receiveBuffer {
      var w := FittingReadCompletes(v, now, cfg);
    } else {
      forall w | Follows(v, w, cfg) ensures !Completed(v.b.node.ist, w.b.node.ist) {
        OversizedNeverCompletes(v, w, now, cfg);
      }
    }
  }
}
