/** The TCP channel's operation queues: one operation at a time per direction, in the order of the calls. */
module TcpTransport {
  import opened Containers
  import opened Protocol
  import opened Keystream
  import T = TcpStream

  /** A queued read or write; for a read only the length of the buffer matters. */
  datatype Task = Task(buffer: seq<byte>, id: nat)

  /** A completion handed to the caller. */
  datatype Post = Post(id: nat, code: Code, count: nat)

  /**
   * One direction: the queue, its byte counter, the operations handed to the stream so far, the completions, and
   * the calls turned away.
   */
  datatype Lane = Lane(queue: seq<Task>, bytes: nat, started: seq<Task>, posted: seq<Post>, refused: seq<Post>)

  const EMPTY_LANE: Lane := Lane([], 0, [], [], [])

  function Bytes(queue: seq<Task>): nat {
    if queue == [] then 0 else |queue[0].buffer| + Bytes(queue[1..])
  }

  lemma BytesHead(q: seq<Task>)
    requires q != []
    ensures Bytes(q) == |q[0].buffer| + Bytes(q[1..])
  {
  }

  lemma {:induction false} BytesSnoc(queue: seq<Task>, t: Task)
    ensures Bytes(queue + [t]) == Bytes(queue) + |t.buffer|
    decreases |queue|
  {
    if queue != [] {
      assert (queue + [t])[1..] == queue[1..] + [t];
      BytesSnoc(queue[1..], t);
    }
  }

  function Refuse(l: Lane, id: nat, code: Code): Lane {
    l.(refused := l.refused + [Post(id, code, 0)])
  }

  /** Queue an operation; it starts at once if the direction was idle. */
  function Submit(l: Lane, t: Task): Lane {
    l.(queue := l.queue + [t], bytes := l.bytes + |t.buffer|,
       started := if l.queue == [] then l.started + [t] else l.started)
  }

  /** The operation in progress completes; the next one starts. */
  function Finish(l: Lane, code: Code, count: nat): Lane
    requires l.queue != [] && |l.queue[0].buffer| <= l.bytes
  {
    l.(queue := l.queue[1..], bytes := l.bytes - |l.queue[0].buffer|,
       started := if |l.queue| > 1 then l.started + [l.queue[1]] else l.started,
       posted := l.posted + [Post(l.queue[0].id, code, count)])
  }

  lemma FinishUnfolds(l: Lane, code: Code, count: nat)
    requires l.queue != [] && |l.queue[0].buffer| <= l.bytes
    ensures Finish(l, code, count) ==
            Lane(l.queue[1..], l.bytes - |l.queue[0].buffer|,
                 if l.queue[1..] == [] then l.started else l.started + [l.queue[1..][0]],
                 l.posted + [Post(l.queue[0].id, code, count)], l.refused)
  {
  }

  // ---------------------------------------------------------------- the transport

  datatype Config = Config(sendBuffer: nat, receiveBuffer: nat)

  /** Both directions of an end. */
  datatype Pipe = Pipe(isOpen: bool, rx: Lane, tx: Lane)

  datatype Event =
    | Read(buffer: seq<byte>, id: nat)
    | Write(buffer: seq<byte>, id: nat)
    | ReadDone(code: Code, count: nat)
    | WriteDone(code: Code, count: nat)
    | Close

  /** `read` checks the bytes queued for writing, not for reading, against the receive buffer. */
  function StepRead(p: Pipe, buffer: seq<byte>, id: nat, cfg: Config): Pipe {
    if !p.isOpen then p.(rx := Refuse(p.rx, id, NotConnected))
    else if p.tx.bytes + |buffer| > cfg.receiveBuffer then p.(rx := Refuse(p.rx, id, MessageSize))
    else p.(rx := Submit(p.rx, Task(buffer, id)))
  }

  function StepWrite(p: Pipe, buffer: seq<byte>, id: nat, cfg: Config): Pipe {
    if !p.isOpen then p.(tx := Refuse(p.tx, id, NotConnected))
    else if p.tx.bytes + |buffer| > cfg.sendBuffer then p.(tx := Refuse(p.tx, id, MessageSize))
    else p.(tx := Submit(p.tx, Task(buffer, id)))
  }

  /** A completion can only arrive for an operation in progress. */
  ghost predicate Possible(p: Pipe, e: Event) {
    match e
    case ReadDone(_, _) => p.rx.queue != [] && |p.rx.queue[0].buffer| <= p.rx.bytes
    case WriteDone(_, _) => p.tx.queue != [] && |p.tx.queue[0].buffer| <= p.tx.bytes
    case _ => true
  }

  ghost function Step(p: Pipe, e: Event, cfg: Config): Pipe
    requires Possible(p, e)
  {
    match e
    case Read(buffer, id) => StepRead(p, buffer, id, cfg)
    case Write(buffer, id) => StepWrite(p, buffer, id, cfg)
    case ReadDone(code, count) => p.(rx := Finish(p.rx, code, count))
    case WriteDone(code, count) => p.(tx := Finish(p.tx, code, count))
    case Close => p.(isOpen := false)
  }

  ghost predicate IsRun(p: Pipe, es: seq<Event>, cfg: Config)
    decreases |es|
  {
    es != [] ==> Possible(p, es[0]) && IsRun(Step(p, es[0], cfg), es[1..], cfg)
  }

  ghost function Exec(p: Pipe, es: seq<Event>, cfg: Config): Pipe
    requires IsRun(p, es, cfg)
    decreases |es|
  {
    if es == [] then p else Exec(Step(p, es[0], cfg), es[1..], cfg)
  }

  /** One step more at the end of a run. */
  lemma {:induction false} RunSnoc(p: Pipe, es: seq<Event>, e: Event, cfg: Config)
    requires IsRun(p, es + [e], cfg)
    ensures IsRun(p, es, cfg) && Possible(Exec(p, es, cfg), e)
    ensures Exec(p, es + [e], cfg) == Step(Exec(p, es, cfg), e, cfg)
    decreases |es|
  {
    if es == [] {
      assert [] + [e] == [e] && [e][1..] == [];
    } else {
      assert (es + [e])[1..] == es[1..] + [e];
      RunSnoc(Step(p, es[0], cfg), es[1..], e, cfg);
    }
  }

  const START: Pipe := Pipe(true, EMPTY_LANE, EMPTY_LANE)

  // ---------------------------------------------------------------- one call

  /** Everything a call leaves alone, and what it adds when it is turned away. */
  ghost predicate TurnedAway(l: Lane, m: Lane, isOpen: bool, id: nat) {
    m == l.(refused := l.refused + [Post(id, if isOpen then MessageSize else NotConnected, 0)])
  }

  /** The operation stands behind the others, and is handed to the stream if there were none. */
  ghost predicate LinedUp(l: Lane, m: Lane, t: Task) {
    && m.queue == l.queue + [t] && m.bytes == l.bytes + |t.buffer|
    && m.started == (if l.queue == [] then l.started + [t] else l.started)
    && m.posted == l.posted && m.refused == l.refused
  }

  /**
   * On every pipe: a write lines up behind the queued ones, and is started if there are none, if and only if the channel
   * is open and the write is no longer than what `writable` leaves. Otherwise it is only turned away.
   */
  lemma WriteAcceptedIff(p: Pipe, buffer: seq<byte>, id: nat, cfg: Config)
    ensures var q := StepWrite(p, buffer, id, cfg);
            && q.(tx := p.tx) == p
            && (LinedUp(p.tx, q.tx, Task(buffer, id)) <==> p.isOpen && |buffer| <= cfg.sendBuffer - p.tx.bytes)
            && (TurnedAway(p.tx, q.tx, p.isOpen, id) <==> !(p.isOpen && |buffer| <= cfg.sendBuffer - p.tx.bytes))
  {
    assert |p.tx.queue + [Task(buffer, id)]| > |p.tx.queue|;
    assert |p.tx.refused + [Post(id, if p.isOpen then MessageSize else NotConnected, 0)]| > |p.tx.refused|;
  }

  /** A read lines up with the reads if and only if the channel is open and the bytes queued for writing leave room. */
  lemma ReadAcceptedIff(p: Pipe, buffer: seq<byte>, id: nat, cfg: Config)
    ensures var q := StepRead(p, buffer, id, cfg);
            && q.(rx := p.rx) == p
            && (LinedUp(p.rx, q.rx, Task(buffer, id)) <==> p.isOpen && |buffer| <= cfg.receiveBuffer - p.tx.bytes)
            && (TurnedAway(p.rx, q.rx, p.isOpen, id) <==> !(p.isOpen && |buffer| <= cfg.receiveBuffer - p.tx.bytes))
  {
    assert |p.rx.queue + [Task(buffer, id)]| > |p.rx.queue|;
    assert |p.rx.refused + [Post(id, if p.isOpen then MessageSize else NotConnected, 0)]| > |p.rx.refused|;
  }

  // ---------------------------------------------------------------- a run told by its events alone

  datatype Outcome = Outcome(code: Code, count: nat)

  predicate Closed(es: seq<Event>) {
    Close in es
  }

  /** The completions among the events, oldest first. */
  function Outcomes(es: seq<Event>, writing: bool): seq<Outcome>
    decreases |es|
  {
    if es == [] then []
    else
      var e := es[|es| - 1];
      var before := Outcomes(es[..|es| - 1], writing);
      if (writing && e.WriteDone?) || (!writing && e.ReadDone?) then before + [Outcome(e.code, e.count)] else before
  }

  /** The calls among the events that were accepted, oldest first. */
  function Accepted(es: seq<Event>, writing: bool, cfg: Config): seq<Task>
    decreases |es|
  {
    if es == [] then []
    else
      var e := es[|es| - 1];
      var before := es[..|es| - 1];
      var sofar := Accepted(before, writing, cfg);
      var room := (if writing then cfg.sendBuffer else cfg.receiveBuffer)
                  - Bytes(Unfinished(Accepted(before, true, cfg), |Outcomes(before, true)|));
      if Asks(e, writing) && !Closed(before) && |e.buffer| <= room then sofar + [Task(e.buffer, e.id)] else sofar
  }

  /** The calls among the events that were turned away, as they were answered. */
  function Refusals(es: seq<Event>, writing: bool, cfg: Config): seq<Post>
    decreases |es|
  {
    if es == [] then []
    else
      var e := es[|es| - 1];
      var before := es[..|es| - 1];
      var sofar := Refusals(before, writing, cfg);
      if Asks(e, writing) && Accepted(es, writing, cfg) == Accepted(before, writing, cfg) then
        sofar + [Post(e.id, if Closed(before) then NotConnected else MessageSize, 0)]
      else sofar
  }

  predicate Asks(e: Event, writing: bool) {
    if writing then e.Write? else e.Read?
  }

  /** What is left of the accepted operations once `done` of them have completed. */
  function Unfinished(accepted: seq<Task>, done: nat): seq<Task> {
    if done <= |accepted| then accepted[done..] else []
  }

  function LaneOf(p: Pipe, writing: bool): Lane {
    if writing then p.tx else p.rx
  }

  /**
   * Completions, each with the outcome the stream reported, then the queue, are the accepted operations in order; only
   * the front of the queue has started.
   */
  ghost predicate InOrder(l: Lane, accepted: seq<Task>, outcomes: seq<Outcome>) {
    && |l.posted| == |outcomes| <= |accepted|
    && (forall i :: 0 <= i < |l.posted| ==> l.posted[i] == Post(accepted[i].id, outcomes[i].code, outcomes[i].count))
    && l.queue == accepted[|outcomes|..]
    && l.started == accepted[..if l.queue == [] then |outcomes| else |outcomes| + 1]
  }

  ghost predicate LaneTells(l: Lane, es: seq<Event>, writing: bool, cfg: Config) {
    && InOrder(l, Accepted(es, writing, cfg), Outcomes(es, writing))
    && l.bytes == Bytes(l.queue)
    && l.refused == Refusals(es, writing, cfg)
  }

  ghost predicate Tells(p: Pipe, es: seq<Event>, cfg: Config) {
    && LaneTells(p.rx, es, false, cfg)
    && LaneTells(p.tx, es, true, cfg)
    && p.isOpen == !Closed(es)
    && p.tx.bytes <= cfg.sendBuffer
  }

  lemma ClosedSnoc(es: seq<Event>, e: Event)
    ensures Closed(es + [e]) <==> Closed(es) || e == Close
  {
  }

  lemma EventsSnoc(es: seq<Event>, e: Event, writing: bool, cfg: Config)
    ensures Outcomes(es + [e], writing) ==
            if (writing && e.WriteDone?) || (!writing && e.ReadDone?) then Outcomes(es, writing) + [Outcome(e.code, e.count)]
            else Outcomes(es, writing)
    ensures !Asks(e, writing) ==>
              Accepted(es + [e], writing, cfg) == Accepted(es, writing, cfg) && Refusals(es + [e], writing, cfg) == Refusals(es, writing, cfg)
  {
    assert (es + [e])[..|es|] == es;
  }

  /** A call at the end of a run. */
  lemma AskSnoc(p: Pipe, es: seq<Event>, e: Event, writing: bool, cfg: Config)
    requires Tells(p, es, cfg) && Asks(e, writing)
    ensures var room := (if writing then cfg.sendBuffer else cfg.receiveBuffer) - p.tx.bytes;
            if p.isOpen && |e.buffer| <= room then
              && Accepted(es + [e], writing, cfg) == Accepted(es, writing, cfg) + [Task(e.buffer, e.id)]
              && Refusals(es + [e], writing, cfg) == Refusals(es, writing, cfg)
            else
              && Accepted(es + [e], writing, cfg) == Accepted(es, writing, cfg)
              && Refusals(es + [e], writing, cfg) ==
                 Refusals(es, writing, cfg) + [Post(e.id, if p.isOpen then MessageSize else NotConnected, 0)]
  {
    assert (es + [e])[..|es|] == es;
    var sofar := Accepted(es, writing, cfg);
    assert |sofar + [Task(e.buffer, e.id)]| != |sofar|;
    hide Bytes, Closed, Outcomes;
  }

  lemma SubmitTells(l: Lane, accepted: seq<Task>, outcomes: seq<Outcome>, t: Task)
    requires InOrder(l, accepted, outcomes) && l.bytes == Bytes(l.queue)
    ensures var m := Submit(l, t); InOrder(m, accepted + [t], outcomes) && m.bytes == Bytes(m.queue)
  {
    BytesSnoc(l.queue, t);
  }

  lemma FinishTells(l: Lane, accepted: seq<Task>, outcomes: seq<Outcome>, code: Code, count: nat)
    requires InOrder(l, accepted, outcomes) && l.bytes == Bytes(l.queue) && l.queue != []
    ensures |l.queue[0].buffer| <= l.bytes
    ensures var m := Finish(l, code, count);
            InOrder(m, accepted, outcomes + [Outcome(code, count)]) && m.bytes == Bytes(m.queue) <= l.bytes
  {
  }

  lemma StepTells(p: Pipe, es: seq<Event>, e: Event, cfg: Config)
    requires Tells(p, es, cfg) && Possible(p, e)
    ensures Tells(Step(p, e, cfg), es + [e], cfg)
  {
    hide InOrder, Bytes, Closed, Accepted, Outcomes, Refusals;
    ClosedSnoc(es, e);
    EventsSnoc(es, e, true, cfg);
    EventsSnoc(es, e, false, cfg);
    match e
    case Read(buffer, id) =>
      AskSnoc(p, es, e, false, cfg);
      SubmitTells(p.rx, Accepted(es, false, cfg), Outcomes(es, false), Task(buffer, id));
      RefuseTells(p.rx, Accepted(es, false, cfg), Outcomes(es, false), id);
    case Write(buffer, id) =>
      AskSnoc(p, es, e, true, cfg);
      SubmitTells(p.tx, Accepted(es, true, cfg), Outcomes(es, true), Task(buffer, id));
      RefuseTells(p.tx, Accepted(es, true, cfg), Outcomes(es, true), id);
      assert LaneTells(Step(p, e, cfg).tx, es + [e], true, cfg);
      assert LaneTells(Step(p, e, cfg).rx, es + [e], false, cfg);
    case ReadDone(code, count) => FinishTells(p.rx, Accepted(es, false, cfg), Outcomes(es, false), code, count);
    case WriteDone(code, count) => FinishTells(p.tx, Accepted(es, true, cfg), Outcomes(es, true), code, count);
    case Close =>
  }

  lemma RefuseTells(l: Lane, accepted: seq<Task>, outcomes: seq<Outcome>, id: nat)
    requires InOrder(l, accepted, outcomes)
    ensures forall code :: InOrder(Refuse(l, id, code), accepted, outcomes)
  {
  }

  lemma {:induction false} RunTells(es: seq<Event>, cfg: Config)
    requires IsRun(START, es, cfg)
    ensures Tells(Exec(START, es, cfg), es, cfg)
    decreases |es|
  {
    hide Tells, Step;
    if es == [] {
      NothingYet(cfg);
    } else {
      var before := es[..|es| - 1];
      var e := es[|es| - 1];
      assert es == before + [e];
      RunSnoc(START, before, e, cfg);
      RunTells(before, cfg);
      StepTells(Exec(START, before, cfg), before, e, cfg);
    }
  }

  lemma NothingYet(cfg: Config)
    ensures Tells(START, [], cfg)
  {
  }

  /**
   * In every run, for either direction: the counter is the number of queued bytes, and for writes never exceeds the send
   * buffer, so `writable` never underflows; completions, with the outcomes reported, and then the queue are exactly the
   * operations that the events say were accepted; only the front one is in progress; and all others were turned away.
   */
  lemma QueuesInEveryRun(es: seq<Event>, writing: bool, cfg: Config)
    requires IsRun(START, es, cfg)
    ensures var l := LaneOf(Exec(START, es, cfg), writing);
            && InOrder(l, Accepted(es, writing, cfg), Outcomes(es, writing))
            && l.refused == Refusals(es, writing, cfg)
            && l.bytes == Bytes(l.queue) && (writing ==> l.bytes <= cfg.sendBuffer)
    ensures Exec(START, es, cfg).isOpen == !Closed(es)
  {
    hide InOrder, Accepted, Outcomes, Refusals, Bytes, Closed, Exec, IsRun;
    RunTells(es, cfg);
  }

  // ---------------------------------------------------------------- what bounds the queued reads

  /** The bytes of this read would still fit, were they counted against the receive buffer. */
  predicate FitsBehind(p: Pipe, size: nat, cfg: Config) {
    p.rx.bytes + size <= cfg.receiveBuffer
  }

  predicate AcceptsRead(p: Pipe, size: nat, cfg: Config) {
    p.isOpen && p.tx.bytes + size <= cfg.receiveBuffer
  }

  /** A read keeps the queued reads within the receive buffer exactly if it is turned away or would fit behind them. */
  lemma ReadStaysWithin(p: Pipe, buffer: seq<byte>, id: nat, cfg: Config)
    requires p.rx.bytes <= cfg.receiveBuffer
    ensures StepRead(p, buffer, id, cfg).rx.bytes <= cfg.receiveBuffer
            <==> !p.isOpen || p.tx.bytes + |buffer| > cfg.receiveBuffer || p.rx.bytes + |buffer| <= cfg.receiveBuffer
  {
  }

  /** Every read the run accepts would fit behind the queued ones. */
  ghost predicate ReadsFit(p: Pipe, es: seq<Event>, cfg: Config)
    requires IsRun(p, es, cfg)
    decreases |es|
  {
    es != [] ==>
      && (es[0].Read? && AcceptsRead(p, |es[0].buffer|, cfg) ==> FitsBehind(p, |es[0].buffer|, cfg))
      && ReadsFit(Step(p, es[0], cfg), es[1..], cfg)
  }

  /** The queued reads stay within the receive buffer all along the run. */
  ghost predicate ReadsWithin(p: Pipe, es: seq<Event>, cfg: Config)
    requires IsRun(p, es, cfg)
    decreases |es|
  {
    p.rx.bytes <= cfg.receiveBuffer && (es != [] ==> ReadsWithin(Step(p, es[0], cfg), es[1..], cfg))
  }

  lemma {:induction false} WithinIffFit(p: Pipe, es: seq<Event>, cfg: Config)
    requires IsRun(p, es, cfg) && p.rx.bytes <= cfg.receiveBuffer
    ensures ReadsWithin(p, es, cfg) <==> ReadsFit(p, es, cfg)
    decreases |es|
  {
    if es != [] {
      var q := Step(p, es[0], cfg);
      if es[0].Read? {
        ReadStaysWithin(p, es[0].buffer, es[0].id, cfg);
      }
      if q.rx.bytes <= cfg.receiveBuffer {
        WithinIffFit(q, es[1..], cfg);
      }
    }
  }

  /** The code does not bound queued reads: along a run they stay within the receive buffer exactly if each would fit. */
  lemma ReadsBoundedIff(es: seq<Event>, cfg: Config)
    requires IsRun(START, es, cfg)
    ensures ReadsWithin(START, es, cfg) <==> ReadsFit(START, es, cfg)
  {
    WithinIffFit(START, es, cfg);
  }

  lemma {:induction false} RepeatedReads(p: Pipe, n: nat, buffer: seq<byte>, cfg: Config) returns (es: seq<Event>)
    requires p.isOpen && p.tx.bytes + |buffer| <= cfg.receiveBuffer && |buffer| > 0
    ensures IsRun(p, es, cfg) && Exec(p, es, cfg).rx.bytes >= p.rx.bytes + n
    decreases n
  {
    es := [];
    if n > 0 {
      var rest := RepeatedReads(StepRead(p, buffer, 0, cfg), n - 1, buffer, cfg);
      es := [Read(buffer, 0)] + rest;
      assert es[1..] == rest;
    }
  }

  /** For every number there is a run that queues more bytes of reads than that. */
  lemma ReadsAreNotBounded(n: nat, cfg: Config) returns (es: seq<Event>)
    requires cfg.receiveBuffer > 0
    ensures IsRun(START, es, cfg) && Exec(START, es, cfg).rx.bytes > n
  {
    es := RepeatedReads(START, n + 1, [0], cfg);
  }

  // ---------------------------------------------------------------- from queue to peer

  /** The writes as the stream sees them; draw(i) is the generator's i-th draw. */
  ghost function Chunks(tasks: seq<Task>, draw: nat -> bv64): seq<T.Chunk> {
    seq(|tasks|, i requires 0 <= i < |tasks| => T.Chunk(tasks[i].buffer, draw(i)))
  }

  function Written(tasks: seq<Task>): seq<byte> {
    if tasks == [] then [] else tasks[0].buffer + Written(tasks[1..])
  }

  lemma {:induction false} ChunkTexts(tasks: seq<Task>, draw: nat -> bv64)
    ensures T.Texts(Chunks(tasks, draw)) == Written(tasks)
    decreases |tasks|
  {
    if tasks != [] {
      var later := (i: nat) => draw(i + 1);
      assert Chunks(tasks, draw)[1..] == Chunks(tasks[1..], later);
      ChunkTexts(tasks[1..], later);
    }
  }

  lemma {:induction false} WrittenPrefix(tasks: seq<Task>, n: nat)
    requires n <= |tasks|
    ensures Written(tasks[..n]) <= Written(tasks)
    decreases |tasks|
  {
    if n > 0 {
      assert tasks[..n][1..] == tasks[1..][..n - 1];
      WrittenPrefix(tasks[1..], n - 1);
    }
  }

  /**
   * End to end: whatever the calls and completions, and however the connection breaks, the peer's reads deliver a
   * prefix of the accepted writes laid end to end; with the connection intact and all accepted writes completed, they
   * deliver as much of them as they ask for.
   */
  lemma PeerReadsWrites(es: seq<Event>, cfg: Config, host: Host, secret: bv64, draw: nat -> bv64, m: nat, sizes: seq<nat>)
    requires IsRun(START, es, cfg) && (secret != 0 ==> draw(0) != 0)
    requires m <= |T.Wire(host, secret, T.IDLE, Chunks(Exec(START, es, cfg).tx.started, draw))|
    ensures var wire := T.Wire(host, secret, T.IDLE, Chunks(Exec(START, es, cfg).tx.started, draw));
            var text := Written(Accepted(es, true, cfg));
            && T.ReadAll(host, secret, T.IDLE, wire[..m], sizes) <= text
            && (m == |wire| && |Outcomes(es, true)| == |Accepted(es, true, cfg)| ==>
                  T.ReadAll(host, secret, T.IDLE, wire[..m], sizes) == text[..Min(T.Sum(sizes), |text|)])
  {
    hide T.Wire, T.ReadAll, Accepted, Outcomes;
    QueuesInEveryRun(es, true, cfg);
    var started := Exec(START, es, cfg).tx.started;
    var tx := Accepted(es, true, cfg);
    var n := |started|;
    assert started == tx[..n];
    assert |Outcomes(es, true)| == |tx| ==> started == tx;
    ChunkTexts(started, draw);
    WrittenPrefix(tx, n);
    if started == [] {
      NothingWritten(host, secret, sizes);
      assert Chunks(started, draw) == [];
    } else {
      T.BrokenStream(host, secret, Chunks(started, draw), sizes, m);
      T.StreamRoundTrip(host, secret, Chunks(started, draw), sizes);
      var wire := T.Wire(host, secret, T.IDLE, Chunks(started, draw));
      assert wire[..|wire|] == wire;
    }
  }

  lemma {:induction false} NothingWritten(host: Host, secret: bv64, sizes: seq<nat>)
    ensures T.Wire(host, secret, T.IDLE, []) == []
    ensures T.ReadAll(host, secret, T.IDLE, [], sizes) == []
    decreases |sizes|
  {
    hide T.Altered, T.HeadSalt, T.HeadSign, MakeInverter;
    if sizes != [] {
      NothingWritten(host, secret, sizes[1..]);
    }
  }

  // ---------------------------------------------------------------- the transport object

  /** The started writes, each with the generator's draw, are what the socket was given, obfuscated in order. */
  ghost predicate Handed(host: Host, secret: bv64, started: seq<Task>, chunks: seq<T.Chunk>, socket: seq<byte>, output: T.Cipher) {
    && |chunks| == |started|
    && (forall i :: 0 <= i < |chunks| ==> chunks[i].data == started[i].buffer)
    && socket == T.Wire(host, secret, T.IDLE, chunks)
    && output == T.After(host, secret, T.IDLE, chunks)
  }

  function Sizes(tasks: seq<Task>): (s: seq<nat>)
    ensures |s| == |tasks| && forall i :: 0 <= i < |s| ==> s[i] == |tasks[i].buffer|
  {
    seq(|tasks|, i requires 0 <= i < |tasks| => |tasks[i].buffer|)
  }

  /** The completed reads have taken their turns at the incoming bytes, in order, and got what the stream makes of them. */
  ghost predicate Taken(host: Host, secret: bv64, done: seq<Task>, incoming: seq<byte>, taken: nat, delivered: seq<byte>,
                        input: T.Cipher) {
    && delivered == T.ReadAll(host, secret, T.IDLE, incoming, Sizes(done))
    && (input, taken) == T.ReadState(host, secret, T.IDLE, incoming, Sizes(done))
  }

  /** The count a read reports; behind a foreign header it counts bytes it has not recovered. */
  function CountOf(r: T.ReadResult): nat {
    if r.code == T.NoRecovery && r.taken >= T.HEAD_SIZE then r.taken - T.HEAD_SIZE else |r.bytes|
  }

  /**
   * A read reports the bytes it took off the wire, less the header if this is the read that took it; these are the bytes
   * delivered unless the header is a foreign one, and never more than were asked for.
   */
  lemma CountIs(host: Host, secret: bv64, c: T.Cipher, rest: seq<byte>, n: nat)
    requires c.shift < 8
    ensures var r := T.ReadStep(host, secret, c, rest, n);
            && CountOf(r) == (if secret == 0 || c.salt != 0 then r.taken else if r.taken < T.HEAD_SIZE then 0 else r.taken - T.HEAD_SIZE)
            && (r.code != T.NoRecovery ==> CountOf(r) == |r.bytes|)
            && CountOf(r) <= n
  {
    hide T.HeadSalt, T.HeadSign, T.Altered, MakeInverter;
  }

  lemma TakenSnoc(host: Host, secret: bv64, done: seq<Task>, incoming: seq<byte>, taken: nat, delivered: seq<byte>,
                  input: T.Cipher, t: Task)
    requires Taken(host, secret, done, incoming, taken, delivered, input)
    ensures taken <= |incoming| && input.shift < 8
    ensures var r := T.ReadStep(host, secret, input, incoming[taken..], |t.buffer|);
            Taken(host, secret, done + [t], incoming, taken + r.taken, delivered + r.bytes, r.cipher)
  {
    hide T.ReadAll, T.ReadState, T.ReadStep;
    T.ReadSnoc(host, secret, T.IDLE, incoming, Sizes(done), |t.buffer|);
    assert Sizes(done + [t]) == Sizes(done) + [|t.buffer|];
  }

  /**
   * The queues of both directions, over one obfuscated stream. `socket` is everything handed to the socket,
   * `incoming` everything it will ever yield, `delivered` what completed reads were given.
   */
  class Transport {
    const cfg: Config
    const stream: T.Stream
    const incoming: seq<byte>
    var isOpen: bool
    var rq: seq<Task>
    var rbSize: nat
    var wq: seq<Task>
    var wbSize: nat
    var readsStarted: seq<Task>
    var writesStarted: seq<Task>
    var readPosts: seq<Post>
    var writePosts: seq<Post>
    var readRefusals: seq<Post>
    var writeRefusals: seq<Post>
    var socket: seq<byte>
    var taken: nat
    var delivered: seq<byte>
    ghost var chunks: seq<T.Chunk>
    ghost var readsDone: seq<Task>

    function State(): Pipe
      reads this
    {
      Pipe(isOpen, Lane(rq, rbSize, readsStarted, readPosts, readRefusals), Lane(wq, wbSize, writesStarted, writePosts, writeRefusals))
    }

    /** The counters are right, the socket has been given the started writes, and the completed reads what came in. */
    ghost predicate Valid()
      reads this, stream
    {
      && stream.Valid()
      && rbSize == Bytes(rq)
      && wbSize == Bytes(wq) <= cfg.sendBuffer
      && Handed(stream.host, stream.secret, writesStarted, chunks, socket, stream.output)
      && Taken(stream.host, stream.secret, readsDone, incoming, taken, delivered, stream.input)
      && readsStarted == if rq == [] then readsDone else readsDone + [rq[0]]
    }

    constructor (host: Host, secret: bv64, cfg: Config, incoming: seq<byte>)
      ensures Valid() && State() == START && this.cfg == cfg && socket == [] && delivered == [] && fresh(stream)
      ensures this.incoming == incoming && stream.host == host && stream.secret == secret
    {
      this.cfg, this.incoming := cfg, incoming;
      stream := new T.Stream(host, secret);
      isOpen, rq, rbSize, wq, wbSize := true, [], 0, [], 0;
      readsStarted, writesStarted, readPosts, writePosts, readRefusals, writeRefusals := [], [], [], [], [], [];
      socket, taken, delivered, chunks, readsDone := [], 0, [], [], [];
    }

    /** Hand a write to the stream. */
    method AsyncWrite(t: Task, random: bv64)
      requires Valid()
      modifies this`writesStarted, this`socket, this`chunks, stream`output
      ensures Valid() && State() == old(State()).(tx := old(State()).tx.(started := old(writesStarted) + [t]))
      ensures old(socket) <= socket && chunks == old(chunks) + [T.Chunk(t.buffer, random)]
    {
      hide T.Wire, T.After, T.WriteStep, Taken;
      T.WireSnoc(stream.host, stream.secret, T.IDLE, chunks, T.Chunk(t.buffer, random));
      var bytes := stream.AsyncWrite(t.buffer, random);
      socket := socket + bytes;
      chunks := chunks + [T.Chunk(t.buffer, random)];
      writesStarted := writesStarted + [t];
    }

    method Write(buffer: seq<byte>, id: nat, random: bv64)
      requires Valid()
      modifies this`wq, this`wbSize, this`writesStarted, this`writeRefusals, this`socket, this`chunks, stream`output
      ensures Valid() && State() == StepWrite(old(State()), buffer, id, cfg)
      ensures old(socket) <= socket && old(chunks) <= chunks
      ensures forall i :: |old(chunks)| <= i < |chunks| ==> chunks[i].random == random
    {
      hide Handed, Bytes, Taken;
      if !isOpen {
        writeRefusals := writeRefusals + [Post(id, NotConnected, 0)];
        return;
      }
      if wbSize + |buffer| > cfg.sendBuffer {
        writeRefusals := writeRefusals + [Post(id, MessageSize, 0)];
        return;
      }
      var t := Task(buffer, id);
      BytesSnoc(wq, t);
      wq := wq + [t];
      wbSize := wbSize + |buffer|;
      if |wq| == 1 {
        AsyncWrite(t, random);
      }
    }

    method WriteDone(code: Code, count: nat, random: bv64)
      requires Valid() && wq != []
      modifies this`wq, this`wbSize, this`writesStarted, this`writePosts, this`socket, this`chunks, stream`output
      ensures Valid() && old(|wq[0].buffer| <= wbSize) && State() == old(State()).(tx := Finish(old(State()).tx, code, count))
      ensures old(socket) <= socket && old(chunks) <= chunks
      ensures forall i :: |old(chunks)| <= i < |chunks| ==> chunks[i].random == random
    {
      hide Handed, Bytes, Taken, Finish;
      BytesHead(wq);
      FinishUnfolds(State().tx, code, count);
      var done := wq[0];
      wq := wq[1..];
      wbSize := wbSize - |done.buffer|;
      if wq != [] {
        AsyncWrite(wq[0], random);
      }
      writePosts := writePosts + [Post(done.id, code, count)];
    }

    method Read(buffer: seq<byte>, id: nat)
      requires Valid()
      modifies this`rq, this`rbSize, this`readsStarted, this`readRefusals
      ensures Valid() && State() == StepRead(old(State()), buffer, id, cfg)
    {
      hide Handed, Bytes, Taken;
      if !isOpen {
        readRefusals := readRefusals + [Post(id, NotConnected, 0)];
        return;
      }
      if wbSize + |buffer| > cfg.receiveBuffer {
        readRefusals := readRefusals + [Post(id, MessageSize, 0)];
        return;
      }
      var t := Task(buffer, id);
      BytesSnoc(rq, t);
      rq := rq + [t];
      rbSize := rbSize + |buffer|;
      if |rq| == 1 {
        readsStarted := readsStarted + [t];
      }
    }

    /** A read takes its bytes off the stream. */
    method AsyncRead(t: Task) returns (r: T.ReadResult)
      requires stream.Valid() && Taken(stream.host, stream.secret, readsDone, incoming, taken, delivered, stream.input)
      modifies this`taken, this`delivered, this`readsDone, stream`input
      ensures stream.Valid() && Taken(stream.host, stream.secret, readsDone, incoming, taken, delivered, stream.input)
      ensures readsDone == old(readsDone) + [t] && delivered == old(delivered) + r.bytes
      ensures old(taken) <= |incoming| && old(stream.input).shift < 8
      ensures r == T.ReadStep(stream.host, stream.secret, old(stream.input), incoming[old(taken)..], |t.buffer|)
    {
      hide T.ReadStep, Taken;
      TakenSnoc(stream.host, stream.secret, readsDone, incoming, taken, delivered, stream.input, t);
      r := stream.AsyncRead(incoming[taken..], |t.buffer|);
      taken, delivered, readsDone := taken + r.taken, delivered + r.bytes, readsDone + [t];
    }

    /** The read in progress gets its bytes; `code` is what the socket reports. */
    method ReadDone(code: Code) returns (r: T.ReadResult)
      requires Valid() && rq != []
      modifies this`rq, this`rbSize, this`readsStarted, this`readPosts, this`taken, this`delivered, this`readsDone, stream`input
      ensures Valid() && old(|rq[0].buffer| <= rbSize) && State() == old(State()).(rx := Finish(old(State()).rx, code, CountOf(r)))
      ensures delivered == old(delivered) + r.bytes
      ensures old(taken) <= |incoming| && old(stream.input).shift < 8
      ensures r == T.ReadStep(stream.host, stream.secret, old(stream.input), incoming[old(taken)..], old(|rq[0].buffer|))
    {
      hide Handed, Bytes, T.ReadStep, Taken, CountOf;
      BytesHead(rq);
      var done := rq[0];
      r := AsyncRead(done);
      NextRead(code, CountOf(r));
    }

    /** The front read leaves the queue, and the next one starts. */
    method NextRead(code: Code, count: nat)
      requires rq != [] && |rq[0].buffer| <= rbSize
      modifies this`rq, this`rbSize, this`readsStarted, this`readPosts
      ensures State() == old(State()).(rx := Finish(old(State()).rx, code, count))
    {
      var done := rq[0];
      rq := rq[1..];
      rbSize := rbSize - |done.buffer|;
      if rq != [] {
        readsStarted := readsStarted + [rq[0]];
      }
      readPosts := readPosts + [Post(done.id, code, count)];
    }

    method Close()
      requires Valid()
      modifies this`isOpen
      ensures Valid() && State() == old(State()).(isOpen := false)
    {
      isOpen := false;
    }

    method Writable() returns (n: nat)
      requires Valid()
      ensures n + Bytes(wq) == cfg.sendBuffer
      ensures forall buffer, id :: isOpen ==>
                (LinedUp(State().tx, StepWrite(State(), buffer, id, cfg).tx, Task(buffer, id)) <==> |buffer| <= n)
    {
      n := cfg.sendBuffer - wbSize;
      forall buffer, id {
        WriteAcceptedIff(State(), buffer, id, cfg);
      }
    }
  }

  /**
   * Two transports whatever has been called on either: if one end gets a prefix of what the other handed to its
   * socket, the reads completed there were given a prefix of the writes started here, laid end to end. If it gets
   * everything, they were given exactly what they asked for, as far as there was any.
   */
  lemma PeerReadsWhatWasWritten(writer: Transport, reader: Transport)
    requires writer.Valid() && reader.Valid()
    requires writer.stream.host == reader.stream.host && writer.stream.secret == reader.stream.secret
    requires reader.incoming <= writer.socket
    requires writer.stream.secret != 0 && writer.chunks != [] ==> writer.chunks[0].random != 0
    ensures reader.delivered <= Written(writer.writesStarted)
    ensures reader.incoming == writer.socket ==>
              var text := Written(writer.writesStarted);
              reader.delivered == text[..Min(T.Sum(Sizes(reader.readsDone)), |text|)]
  {
    hide T.Wire, T.ReadAll, T.ReadState, T.After;
    var host, secret := writer.stream.host, writer.stream.secret;
    TextsWritten(writer.chunks, writer.writesStarted);
    if writer.chunks == [] {
      NothingWritten(host, secret, Sizes(reader.readsDone));
    } else {
      assert reader.incoming == writer.socket[..|reader.incoming|];
      T.BrokenStream(host, secret, writer.chunks, Sizes(reader.readsDone), |reader.incoming|);
      T.StreamRoundTrip(host, secret, writer.chunks, Sizes(reader.readsDone));
    }
  }

  lemma {:induction false} TextsWritten(chunks: seq<T.Chunk>, tasks: seq<Task>)
    requires |chunks| == |tasks| && forall i :: 0 <= i < |chunks| ==> chunks[i].data == tasks[i].buffer
    ensures T.Texts(chunks) == Written(tasks)
    decreases |chunks|
  {
    if chunks != [] {
      TextsWritten(chunks[1..], tasks[1..]);
    }
  }
}
