/** What one pass over a packet achieves: everything sent is one thing less to send. */
module PassLaws {
  import opened Containers
  import opened Protocol
  import S = Sending
  import R = Receiving
  import C = Connecting
  import SL = SenderLaws
  import RL = ReceiverLaws
  import CL = ConnectorLaws
  import F = FlightLaws

  // ---------------------------------------------------------------- the sending half

  /** No flight that is due has used up its attempts. */
  ghost predicate NoneSpent(s: S.Sender, now: nat, limit: nat) {
    forall h :: h in s.moves && s.moves[h].time < now ==> s.moves[h].attempt != limit
  }

  /** What there is to send: flights that are due, queued bytes, edges to echo. */
  function Load(s: S.Sender, now: nat): nat {
    |S.Overdue(s, now)| + |Concat(s.queue)| + |s.acks|
  }

  /**
   * What sending `sections` at `now` makes of the flights of s: those sent carry the time `now + repeat`, the others keep
   * theirs; data never changes, and every fragment sent is in flight.
   */
  ghost predicate SentSince(s: S.Sender, t: S.Sender, sections: seq<Section>, now: nat, repeat: nat) {
    && s.moves.Keys <= t.moves.Keys
    && (forall h :: h in s.moves ==> t.moves[h].data == s.moves[h].data)
    && (forall h :: h in t.moves ==>
          if Move(h, t.moves[h].data) in sections then t.moves[h].time == now + repeat
          else h in s.moves && t.moves[h].time == s.moves[h].time)
    && (forall x :: x in sections && x.Move? ==> x.handle in t.moves && t.moves[x.handle].data == x.fragment)
  }

  lemma RepeatedOnce(s: S.Sender, h: nat, now: nat, repeat: nat)
    requires h in s.moves
    ensures SentSince(s, S.Repeated(s, h, now + repeat), [Move(h, s.moves[h].data)], now, repeat)
  {
  }

  lemma SinceThen(s: S.Sender, t: S.Sender, u: S.Sender, a: seq<Section>, b: seq<Section>, now: nat, repeat: nat)
    requires SentSince(s, t, a, now, repeat) && SentSince(t, u, b, now, repeat)
    ensures SentSince(s, u, a + b, now, repeat)
  {
    forall h | h in u.moves
      ensures if Move(h, u.moves[h].data) in a + b then u.moves[h].time == now + repeat
              else h in s.moves && u.moves[h].time == s.moves[h].time
    {
      var x := Move(h, u.moves[h].data);
      assert x in a + b <==> x in a || x in b;
      if x !in b {
        assert h in t.moves && t.moves[h].data == u.moves[h].data;
      }
    }
  }

  lemma SinceSelf(s: S.Sender, now: nat, repeat: nat)
    ensures SentSince(s, s, [], now, repeat)
  {
  }

  /** A flight that is given up keeps its time. */
  lemma GivenUpSince(s: S.Sender, h: nat, now: nat, repeat: nat)
    requires h in s.moves
    ensures SentSince(s, S.GivenUp(s, h), [], now, repeat)
  {
  }

  lemma {:induction false} ResendStamps(s: S.Sender, room: nat, now: nat, repeat: nat, limit: nat)
    ensures var b := S.Resend(s, room, now, repeat, limit); SentSince(s, b.sender, b.sections, now, repeat)
    decreases |S.Overdue(s, now)|
  {
    hide S.Resend, S.Overdue, S.Due, S.Eligible, S.Repeated, S.GivenUp, SentSince;
    S.ResendUnfolds(s, room, now, repeat, limit);
    SinceSelf(s, now, repeat);
    var due := S.Eligible(s, room, now);
    if due != {} {
      var h := MinOf(due);
      if s.moves[h].attempt == limit {
        GivenUpSince(s, h, now, repeat);
      } else {
        var x := Move(h, s.moves[h].data);
        var t := S.Repeated(s, h, now + repeat);
        S.OverdueShrinks(s, now, h, repeat);
        RepeatedOnce(s, h, now, repeat);
        ResendStamps(t, room - SizeOf(x), now, repeat, limit);
        SinceThen(s, t, S.Resend(t, room - SizeOf(x), now, repeat, limit).sender, [x],
                  S.Resend(t, room - SizeOf(x), now, repeat, limit).sections, now, repeat);
      }
    }
  }

  lemma CutStamp(s: S.Sender, max: nat, now: nat, repeat: nat)
    requires s.queue != [] && max > 0 && F.Loaded(s)
    ensures SentSince(s, S.CutOnce(s, max, now + repeat), [S.CutSection(s, max)], now, repeat)
  {
    hide Concat;
    assert s.head !in s.moves;
  }

  lemma {:induction false} CutStamps(s: S.Sender, room: nat, now: nat, repeat: nat, swarm: nat)
    requires s.head <= s.range && F.Loaded(s)
    ensures var b := S.Cut(s, room, now, repeat, swarm); SentSince(s, b.sender, b.sections, now, repeat)
    decreases |s.queue|, if s.queue == [] then 0 else |s.queue[0]|
  {
    hide S.CutOnce, S.Pull, S.NoEmptyChunk, Concat, SentSince, S.CutSection, F.Loaded;
    S.CutUnfolds(s, room, now, repeat, swarm);
    SinceSelf(s, now, repeat);
    var max := S.CutLimit(s, room, swarm);
    if max > 0 {
      CutStamp(s, max, now, repeat);
      F.CutOnceLoaded(s, max, now + repeat);
      var t := S.CutOnce(s, max, now + repeat);
      var x := S.CutSection(s, max);
      CutStamps(t, room - SizeOf(x), now, repeat, swarm);
      var b := S.Cut(t, room - SizeOf(x), now, repeat, swarm);
      SinceThen(s, t, b.sender, [x], b.sections, now, repeat);
    }
  }

  lemma LoadedStays(s: S.Sender, t: S.Sender)
    requires F.Loaded(s) && S.SameFlights(s, t) && t.(moves := s.moves, alarms := s.alarms) == s
    ensures F.Loaded(t)
  {
  }

  lemma SameMoves(s: S.Sender, t: S.Sender, u: S.Sender, a: seq<Section>, now: nat, repeat: nat)
    requires SentSince(s, t, a, now, repeat) && u.moves == t.moves
    ensures SentSince(s, u, a, now, repeat)
  {
  }

  lemma MoreSections(s: S.Sender, t: S.Sender, a: seq<Section>, b: seq<Section>, now: nat, repeat: nat)
    requires SentSince(s, t, a, now, repeat) && forall x :: x in b ==> !x.Move?
    ensures SentSince(s, t, a + b, now, repeat) && SentSince(s, t, b + a, now, repeat)
  {
    assert forall x :: x in a + b <==> x in a || x in b;
    assert forall x :: x in b + a <==> x in a || x in b;
  }

  /**
   * A pass of the sending half, however it ends: every flight whose fragment is in the packet is due again after
   * `repeat`, every other one stays due when it was.
   */
  lemma PassStamps(s: S.Sender, room: nat, now: nat, repeat: nat, cfg: Config)
    requires s.head <= s.range && F.Loaded(s)
    ensures var b := S.Imbue(s, room, now, repeat, cfg); SentSince(s, b.sender, b.sections, now, repeat)
  {
    hide S.Resend, S.Cut, S.EchoEdges, Concat, SentSince, F.Loaded, S.SameFlights, SizeOfAll;
    S.ResendFrame(s, room, now, repeat, cfg.attempts);
    ResendStamps(s, room, now, repeat, cfg.attempts);
    var first := S.Resend(s, room, now, repeat, cfg.attempts);
    if first.ok {
      LoadedStays(s, first.sender);
      CutStamps(first.sender, first.room, now, repeat, cfg.swarm);
      var second := S.Cut(first.sender, first.room, now, repeat, cfg.swarm);
      SL.EchoEdgesFrame(second.sender, second.room);
      var third := S.EchoEdges(second.sender, second.room);
      SinceThen(s, first.sender, second.sender, first.sections, second.sections, now, repeat);
      SameMoves(s, second.sender, third.sender, first.sections + second.sections, now, repeat);
      MoreSections(s, third.sender, first.sections + second.sections, third.sections, now, repeat);
    }
  }

  lemma {:induction false} ResendPass(s: S.Sender, room: nat, now: nat, repeat: nat, limit: nat)
    requires NoneSpent(s, now, limit)
    ensures var b := S.Resend(s, room, now, repeat, limit);
            && b.ok
            && |b.sections| + |S.Overdue(b.sender, now)| == |S.Overdue(s, now)|
            && NoneSpent(b.sender, now, limit)
            && (b.sections == [] ==> S.Eligible(s, room, now) == {})
    decreases |S.Overdue(s, now)|
  {
    hide S.Resend, S.Overdue, S.Due, S.Eligible, S.Repeated, NoneSpent;
    S.ResendUnfolds(s, room, now, repeat, limit);
    var due := S.Eligible(s, room, now);
    if due != {} {
      var h := MinOf(due);
      DueLeft(s, h, now, limit);
      var x := Move(h, s.moves[h].data);
      var t := S.Repeated(s, h, now + repeat);
      S.OverdueShrinks(s, now, h, repeat);
      OneLess(s, t, h, now);
      NotSpentNow(s, h, now, repeat, limit);
      ResendPass(t, room - SizeOf(x), now, repeat, limit);
    }
  }

  lemma NotSpentNow(s: S.Sender, h: nat, now: nat, repeat: nat, limit: nat)
    requires h in s.moves && NoneSpent(s, now, limit)
    ensures NoneSpent(S.Repeated(s, h, now + repeat), now, limit)
  {
  }

  lemma DueLeft(s: S.Sender, h: nat, now: nat, limit: nat)
    requires NoneSpent(s, now, limit) && h in S.Overdue(s, now)
    ensures h in s.moves && s.moves[h].attempt != limit
  {
  }

  lemma OneLess(s: S.Sender, t: S.Sender, h: nat, now: nat)
    requires h in S.Overdue(s, now) && S.Overdue(t, now) == S.Overdue(s, now) - {h}
    ensures |S.Overdue(t, now)| + 1 == |S.Overdue(s, now)|
  {
    hide S.Overdue;
  }

  lemma CutSince(s: S.Sender, max: nat, now: nat, repeat: nat, limit: nat)
    requires s.queue != [] && max > 0 && F.Loaded(s) && NoneSpent(s, now, limit)
    ensures var t := S.CutOnce(s, max, now + repeat);
            && NoneSpent(t, now, limit)
            && S.Overdue(t, now) == S.Overdue(s, now)
            && |Concat(t.queue)| < |Concat(s.queue)|
            && t.acks == s.acks && t.range == s.range
  {
    hide Concat;
    var t := S.CutOnce(s, max, now + repeat);
    assert s.head !in s.moves;
    assert S.Overdue(t, now) == S.Overdue(s, now);
  }

  lemma {:induction false} CutPass(s: S.Sender, room: nat, now: nat, repeat: nat, limit: nat, swarm: nat)
    requires s.head <= s.range && F.Loaded(s) && NoneSpent(s, now, limit)
    ensures var b := S.Cut(s, room, now, repeat, swarm);
            && b.ok
            && |b.sections| + |Concat(b.sender.queue)| <= |Concat(s.queue)|
            && S.Overdue(b.sender, now) == S.Overdue(s, now)
            && NoneSpent(b.sender, now, limit)
            && b.sender.acks == s.acks && b.sender.range == s.range
            && (b.sections == [] ==> S.CutLimit(s, room, swarm) == 0 && b.sender == s)
    decreases |s.queue|, if s.queue == [] then 0 else |s.queue[0]|
  {
    hide S.CutOnce, S.Pull, S.NoEmptyChunk, Concat, NoneSpent, S.Overdue, S.CutSection, F.Loaded;
    S.CutUnfolds(s, room, now, repeat, swarm);
    var max := S.CutLimit(s, room, swarm);
    if max > 0 {
      CutSince(s, max, now, repeat, limit);
      F.CutOnceLoaded(s, max, now + repeat);
      var t := S.CutOnce(s, max, now + repeat);
      CutPass(t, room - SizeOf(S.CutSection(s, max)), now, repeat, limit, swarm);
    }
  }

  lemma {:induction false} EchoPass(s: S.Sender, room: nat)
    ensures var b := S.EchoEdges(s, room);
            && |b.sections| + |b.sender.acks| == |s.acks|
            && (b.sections == [] && room >= 12 ==> s.acks == {})
    decreases |s.acks|
  {
    hide S.EchoEdges;
    S.EchoEdgesUnfolds(s, room);
    if !(s.acks == {} || room < SECTION_HEADER + VALUE_SIZE) {
      var v := MinOf(s.acks);
      EchoPass(s.(acks := s.acks - {v}), room - 12);
    }
  }

  lemma SameDue(s: S.Sender, t: S.Sender, now: nat, limit: nat)
    requires NoneSpent(s, now, limit) && t.moves == s.moves
    ensures NoneSpent(t, now, limit) && S.Overdue(t, now) == S.Overdue(s, now)
  {
  }

  /**
   * A pass of the sending half with no due flight at its limit: each section is one thing less to send, what is sent is due
   * again after `repeat` and nothing else changes its time, and an empty pass leaves nothing that fits.
   */
  lemma SenderPass(s: S.Sender, room: nat, now: nat, repeat: nat, cfg: Config)
    requires s.head <= s.range && F.Loaded(s) && NoneSpent(s, now, cfg.attempts)
    ensures var b := S.Imbue(s, room, now, repeat, cfg);
            && b.ok
            && |b.sections| + Load(b.sender, now) <= Load(s, now)
            && NoneSpent(b.sender, now, cfg.attempts)
            && SentSince(s, b.sender, b.sections, now, repeat)
            && b.sender.range == s.range
            && (b.sections == [] ==>
                  && S.Eligible(s, room, now) == {}
                  && S.CutLimit(s, room, cfg.swarm) == 0
                  && (room >= 12 ==> s.acks == {}))
  {
    hide S.Resend, S.Cut, S.EchoEdges, S.Overdue, S.Eligible, Concat, NoneSpent, SentSince, F.Loaded, S.CutLimit, S.SameFlights, SizeOfAll;
    PassStamps(s, room, now, repeat, cfg);
    S.ResendFrame(s, room, now, repeat, cfg.attempts);
    ResendPass(s, room, now, repeat, cfg.attempts);
    var first := S.Resend(s, room, now, repeat, cfg.attempts);
    LoadedStays(s, first.sender);
    CutPass(first.sender, first.room, now, repeat, cfg.attempts, cfg.swarm);
    var second := S.Cut(first.sender, first.room, now, repeat, cfg.swarm);
    EchoPass(second.sender, second.room);
    SL.EchoEdgesFrame(second.sender, second.room);
    var third := S.EchoEdges(second.sender, second.room);
    SameDue(second.sender, third.sender, now, cfg.attempts);
    if first.sections + second.sections + third.sections == [] {
      SL.CutSections(first.sender, first.room, now, repeat, cfg.swarm);
      Emptied(s, room, now, repeat, cfg);
    }
  }

  /** With nothing repeated the sender is as it was. */
  lemma Emptied(s: S.Sender, room: nat, now: nat, repeat: nat, cfg: Config)
    requires var b := S.Resend(s, room, now, repeat, cfg.attempts); b.sections == [] && b.ok
    ensures S.Resend(s, room, now, repeat, cfg.attempts) == S.Burst(s, [], room, true)
  {
    hide S.Resend, S.Overdue, S.Due, S.Eligible, S.Repeated;
    S.ResendUnfolds(s, room, now, repeat, cfg.attempts);
  }

  // ---------------------------------------------------------------- the receiving half

  /** What there is to send: fragments to acknowledge, and the edge when its time has come. */
  function Dues(r: R.Receiver, now: nat): nat {
    |r.acks| + if r.edgeTime.NotAfter(now) then 1 else 0
  }

  lemma {:induction false} AckPass(r: R.Receiver, room: nat)
    ensures var b := R.EchoMoves(r, room);
            && |b.sections| + |b.receiver.acks| == |r.acks|
            && (forall h :: h in r.acks ==> h in b.receiver.acks || MoveEcho(h) in b.sections)
            && (b.sections == [] ==> b.receiver == r && b.room == room && (room >= 12 ==> r.acks == {}))
    decreases |r.acks|
  {
    hide R.EchoMoves;
    R.EchoMovesUnfolds(r, room);
    if !(r.acks == {} || room < SECTION_HEADER + VALUE_SIZE) {
      var h := MinOf(r.acks);
      var t := r.(acks := r.acks - {h});
      AckPass(t, room - 12);
      var rest := R.EchoMoves(t, room - 12).sections;
      forall k | k in r.acks ensures k in R.EchoMoves(r, room).receiver.acks || MoveEcho(k) in [MoveEcho(h)] + rest {
        if k != h {
          assert k in t.acks;
        }
      }
    }
  }

  /**
   * A pass of the receiving half: each section is one thing less to send; the edge goes out when its time has come and
   * is due again after `repeat`.
   */
  lemma ReceiverPass(r: R.Receiver, room: nat, now: nat, repeat: nat)
    ensures var b := R.Imbue(r, room, now, repeat);
            && (repeat > 0 ==> |b.sections| + Dues(b.receiver, now) == Dues(r, now))
            && (forall h :: h in r.acks <==> h in b.receiver.acks || MoveEcho(h) in b.sections)
            && (Edge(r.edge) in b.sections ==> r.edgeTime.NotAfter(now))
            && b.receiver.edgeTime == (if Edge(r.edge) in b.sections then At(now + repeat) else r.edgeTime)
            && (b.sections == [] ==> b.receiver == r && b.room == room && (room >= 12 ==> Dues(r, now) == 0))
  {
    hide R.EchoMoves, SizeOfAll;
    AckPass(r, room);
    RL.EchoMovesFrame(r, room);
    var b := R.EchoMoves(r, room);
    var all := b.sections + [Edge(b.receiver.edge)];
    assert all[|b.sections|] == Edge(b.receiver.edge);
    assert forall x :: x in b.sections ==> x in all;
    assert forall x :: x in all ==> x in b.sections || x == Edge(b.receiver.edge);
  }

  // ---------------------------------------------------------------- the connector

  /** What remains of a job once it has been sent: an echo is gone, everything else is due again after `repeat`. */
  ghost predicate JobsSent(c: C.Connector, d: C.Connector, sent: set<nat>, now: nat, repeat: nat) {
    forall k :: k in c.jobs || k in d.jobs ==>
      if k in sent then
        k in c.jobs && (if k % 2 == 1 then k !in d.jobs else k in d.jobs && d.jobs[k] == now + repeat)
      else k in c.jobs && k in d.jobs && d.jobs[k] == c.jobs[k]
  }

  lemma {:induction false} JobsPass(c: C.Connector, room: nat, now: nat, repeat: nat)
    requires C.JobsOk(c) && CL.Need(C.Ready(c, now)) <= room
    ensures JobsSent(c, C.RunJobs(c, room, now, repeat).connector, C.Ready(c, now), now, repeat)
    decreases |C.Ready(c, now)|
  {
    hide C.Ready, CL.Need, C.AfterJob, C.JobSection, C.JobsOk, JobsSent;
    NoneSent(c, now, repeat);
    if C.Ready(c, now) != {} {
      var k := MinOf(C.Ready(c, now));
      CL.ReadyJob(c, k, now, repeat);
      CL.NeedSplits(c, k, now);
      var x := C.JobSection(c, k, now);
      var t := C.AfterJob(c, k, now, repeat);
      JobsPass(t, room - SizeOf(x), now, repeat);
      OneSent(c, t, C.RunJobs(t, room - SizeOf(x), now, repeat).connector, k, C.Ready(c, now), now, repeat);
    }
  }

  lemma NoneSent(c: C.Connector, now: nat, repeat: nat)
    ensures JobsSent(c, c, {}, now, repeat)
  {
  }

  lemma OneSent(c: C.Connector, t: C.Connector, d: C.Connector, k: nat, ready: set<nat>, now: nat, repeat: nat)
    requires k in c.jobs && 2 <= k <= 7 && t == C.AfterJob(c, k, now, repeat) && k in ready
    requires JobsSent(t, d, ready - {k}, now, repeat)
    ensures JobsSent(c, d, ready, now, repeat)
  {
  }

  lemma {:induction false} LinkedStays(c: C.Connector, room: nat, now: nat, repeat: nat)
    requires C.JobsOk(c) && c.status == C.Linked && C.TEAR_ECHO !in c.jobs
    ensures var d := C.RunJobs(c, room, now, repeat).connector;
            d.status == C.Linked && C.TEAR_ECHO !in d.jobs && d.seen == c.seen && d.dead == c.dead && d.local == c.local
    decreases |C.Ready(c, now)|
  {
    if !(room < SECTION_HEADER || C.Ready(c, now) == {}) {
      var k := MinOf(C.Ready(c, now));
      assert k in C.Ready(c, now);
      C.ReadyShrinks(c, k, now, repeat);
      CL.JobsShrink(c, k, now, repeat);
      var x := C.JobSection(c, k, now);
      LinkedStays(C.AfterJob(c, k, now, repeat), if SizeOf(x) <= room then room - SizeOf(x) else 0, now, repeat);
    }
  }

  /** A pass of a linked connector sends every ready job once; requests are due again after `repeat`, echoes are done. */
  lemma ConnectorPass(c: C.Connector, room: nat, now: nat, repeat: nat, cfg: Config)
    requires C.JobsOk(c) && c.status == C.Linked && C.TEAR_ECHO !in c.jobs && !C.TimedOut(c, now, cfg) && room >= 40
    ensures var b := C.Imbue(c, room, now, repeat, cfg);
            && b.connector.status == C.Linked && C.TEAR_ECHO !in b.connector.jobs && !C.TimedOut(b.connector, now, cfg)
            && b.connector.local == c.local
            && |b.sections| == |C.Ready(c, now)| && C.Ready(b.connector, now) == {}
            && JobsSent(c, b.connector, C.Ready(c, now), now, repeat)
            && (b.sections == [] ==> b.connector == c && b.room == room)
            && (forall x :: x in b.sections ==> !x.Move? && !x.MoveEcho? && !x.Edge? && !x.EdgeEcho?)
  {
    hide C.RunJobs, C.Ready, JobsSent;
    CL.FortyBytesSuffice(C.Ready(c, now));
    CL.FitsAlways(c, room, now, repeat);
    JobsPass(c, room, now, repeat);
    LinkedStays(c, room, now, repeat);
    if C.Ready(c, now) == {} {
      NothingReady(c, room, now, repeat);
    }
    assert C.RunJobs(c, room, now, repeat).sections == [] ==> |C.Ready(c, now)| == 0;
  }

  lemma NothingReady(c: C.Connector, room: nat, now: nat, repeat: nat)
    requires C.JobsOk(c) && C.Ready(c, now) == {}
    ensures C.RunJobs(c, room, now, repeat) == C.Burst(c, [], room)
  {
  }

  // ---------------------------------------------------------------- the order of a packet

  /** Retransmission begins with the oldest fragment and goes on in the order of the stream. */
  lemma {:induction false} RepeatsInOrder(s: S.Sender, room: nat, now: nat, repeat: nat, limit: nat)
    ensures var x := S.Resend(s, room, now, repeat, limit).sections;
            && (forall i :: 0 <= i < |x| ==> x[i].Move? && x[i].handle in S.Eligible(s, room, now))
            && (forall i, j :: 0 <= i < j < |x| ==> x[i].handle < x[j].handle)
    decreases |S.Overdue(s, now)|
  {
    hide S.Resend, S.Overdue, S.Due, S.Eligible, S.Repeated, S.GivenUp;
    S.ResendUnfolds(s, room, now, repeat, limit);
    var due := S.Eligible(s, room, now);
    if due != {} {
      var h := MinOf(due);
      if s.moves[h].attempt != limit {
        var x := Move(h, s.moves[h].data);
        S.OverdueShrinks(s, now, h, repeat);
        RepeatsInOrder(S.Repeated(s, h, now + repeat), room - SizeOf(x), now, repeat, limit);
        LaterEligible(s, h, room, now, repeat);
      }
    }
  }

  lemma LaterEligible(s: S.Sender, h: nat, room: nat, now: nat, repeat: nat)
    requires h in S.Eligible(s, room, now)
    ensures S.Eligible(S.Repeated(s, h, now + repeat), room - SizeOf(Move(h, s.moves[h].data)), now) <= S.Eligible(s, room, now) - {h}
  {
  }

  /** Acknowledgements stand in the order of the stream. */
  lemma {:induction false} AcksInOrder(r: R.Receiver, room: nat)
    ensures var x := R.EchoMoves(r, room).sections;
            && (forall i :: 0 <= i < |x| ==> x[i].MoveEcho? && x[i].cursor in r.acks)
            && (forall i, j :: 0 <= i < j < |x| ==> x[i].cursor < x[j].cursor)
            && (forall i, h :: 0 <= i < |x| && h in R.EchoMoves(r, room).receiver.acks ==> x[i].cursor < h)
    decreases |r.acks|
  {
    hide R.EchoMoves;
    R.EchoMovesUnfolds(r, room);
    RL.EchoMovesFrame(r, room);
    if !(r.acks == {} || room < SECTION_HEADER + VALUE_SIZE) {
      var h := MinOf(r.acks);
      AcksInOrder(r.(acks := r.acks - {h}), room - 12);
      RL.EchoMovesFrame(r.(acks := r.acks - {h}), room - 12);
    }
  }

  /** Echoes of edges stand in ascending order; those left out are the greatest. */
  lemma {:induction false} EdgesInOrder(s: S.Sender, room: nat)
    ensures var x := S.EchoEdges(s, room).sections;
            && (forall i :: 0 <= i < |x| ==> x[i].EdgeEcho? && x[i].range in s.acks)
            && (forall i, j :: 0 <= i < j < |x| ==> x[i].range < x[j].range)
            && (forall i, v :: 0 <= i < |x| && v in S.EchoEdges(s, room).sender.acks ==> x[i].range < v)
    decreases |s.acks|
  {
    hide S.EchoEdges;
    S.EchoEdgesUnfolds(s, room);
    SL.EchoEdgesFrame(s, room);
    if !(s.acks == {} || room < SECTION_HEADER + VALUE_SIZE) {
      var v := MinOf(s.acks);
      EdgesInOrder(s.(acks := s.acks - {v}), room - 12);
      SL.EchoEdgesFrame(s.(acks := s.acks - {v}), room - 12);
    }
  }

  // ---------------------------------------------------------------- what `deferred` says

  lemma SomethingDue(s: S.Sender, room: nat, now: nat, repeat: nat, limit: nat)
    requires S.Eligible(s, room, now) != {}
    ensures var b := S.Resend(s, room, now, repeat, limit); b.sections != [] || !b.ok
  {
    hide S.Resend, S.Eligible;
    S.ResendUnfolds(s, room, now, repeat, limit);
  }

  lemma NothingDue(s: S.Sender, room: nat, now: nat, repeat: nat, limit: nat)
    requires s.moves == map[]
    ensures S.Resend(s, room, now, repeat, limit) == S.Burst(s, [], room, true)
  {
    hide S.Resend;
    S.ResendUnfolds(s, room, now, repeat, limit);
  }

  lemma CutsOrNot(s: S.Sender, room: nat, now: nat, repeat: nat, swarm: nat)
    requires s.head <= s.range
    ensures if S.CutLimit(s, room, swarm) > 0 then S.Cut(s, room, now, repeat, swarm).sections != []
            else S.Cut(s, room, now, repeat, swarm) == S.Burst(s, [], room, true)
  {
    hide S.Cut, S.CutOnce, S.CutSection, S.CutLimit;
    S.CutUnfolds(s, room, now, repeat, swarm);
  }

  lemma EchoesOrNot(s: S.Sender, room: nat)
    ensures if s.acks != {} && room >= 12 then S.EchoEdges(s, room).sections != [] else S.EchoEdges(s, room) == S.Burst(s, [], room, true)
  {
    hide S.EchoEdges;
    S.EchoEdgesUnfolds(s, room);
  }

  /**
   * A sender that is not deferred sends nothing, whenever and in whatever room; one that is sends a fragment or an echo, or
   * gives up, as soon as its flights are due and the packet holds them.
   */
  lemma SenderDeferred(s: S.Sender, room: nat, now: nat, repeat: nat, cfg: Config)
    requires s.head <= s.range && cfg.swarm > 0
    ensures !S.Deferred(s) ==> S.Imbue(s, room, now, repeat, cfg) == S.Burst(s, [], room, true)
    ensures S.Deferred(s) && room > 12 && (forall h :: h in s.moves ==> s.moves[h].time < now && |s.moves[h].data| + 12 <= room) ==>
              var b := S.Imbue(s, room, now, repeat, cfg); b.sections != [] || !b.ok
  {
    hide S.Resend, S.Cut, S.EchoEdges, SizeOfAll;
    S.ResendFrame(s, room, now, repeat, cfg.attempts);
    var first := S.Resend(s, room, now, repeat, cfg.attempts);
    if s.moves == map[] {
      NothingDue(s, room, now, repeat, cfg.attempts);
      CutsOrNot(s, room, now, repeat, cfg.swarm);
      EchoesOrNot(s, room);
    } else if room > 12 && forall h :: h in s.moves ==> s.moves[h].time < now && |s.moves[h].data| + 12 <= room {
      var h :| h in s.moves;
      assert h in S.Eligible(s, room, now);
      SomethingDue(s, room, now, repeat, cfg.attempts);
    }
  }

  /** The same of a receiver: an acknowledgement or its edge. */
  lemma ReceiverDeferred(r: R.Receiver, room: nat, now: nat, repeat: nat)
    ensures !R.Deferred(r) ==> R.Imbue(r, room, now, repeat) == R.Burst(r, [], room)
    ensures R.Deferred(r) && room >= 12 && (r.edgeTime.At? ==> r.edgeTime.t <= now) ==> R.Imbue(r, room, now, repeat).sections != []
  {
    hide R.EchoMoves;
    R.EchoMovesUnfolds(r, room);
  }

  /** The same of a connector: a job. */
  lemma ConnectorDeferred(c: C.Connector, room: nat, now: nat, repeat: nat)
    requires C.JobsOk(c)
    ensures !C.Deferred(c) ==> C.RunJobs(c, room, now, repeat) == C.Burst(c, [], room)
    ensures C.Deferred(c) && room >= 4 && (forall k :: k in c.jobs ==> c.jobs[k] < now) ==> C.RunJobs(c, room, now, repeat).sections != []
  {
    if C.Deferred(c) {
      var k :| k in c.jobs;
      assert c.jobs[k] < now ==> k in C.Ready(c, now);
    }
  }
}
