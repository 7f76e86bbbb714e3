/** What every step of the receiving half keeps, whatever the peer sends. */
module ReceiverLaws {
  import opened Containers
  import opened Protocol
  import opened Receiving

  /** The bytes handed back by completed reads, in posting order. */
  function Returned(posted: seq<ReadPost>): seq<byte> {
    if posted == [] then [] else Returned(posted[..|posted| - 1]) + posted[|posted| - 1].bytes
  }

  /** The bytes waiting in the buffers of pending reads. */
  function Filled(readers: seq<Reader>): seq<byte> {
    if readers == [] then [] else readers[0].fill + Filled(readers[1..])
  }

  /** Every byte ever placed in a caller's buffer, in order. */
  function Delivered(r: Receiver): seq<byte> {
    Returned(r.posted) + Filled(r.readers)
  }

  /** Only the front read is begun, and the edge counts completed reads. */
  ghost predicate ReaderCore(r: Receiver, cfg: Config) {
    && FillsFit(r)
    && (forall i :: 1 <= i < |r.readers| ==> r.readers[i].fill == [])
    && r.head == |Delivered(r)|
    && r.edge == cfg.receiveBuffer + |Returned(r.posted)|
  }

  /** The local invariant of an open receiver. */
  ghost predicate ReaderInv(r: Receiver, cfg: Config) {
    ReaderCore(r, cfg) && FrontOpen(r)
  }

  /** A read that holds bytes is still waiting for more. */
  predicate FrontOpen(r: Receiver) {
    r.readers != [] && r.readers[0].fill != [] ==> |r.readers[0].fill| < r.readers[0].size
  }

  /** No read waits while its next byte is at hand. */
  predicate Quiet(r: Receiver) {
    r.readers == [] || !Available(r)
  }

  lemma ReturnedSnoc(posted: seq<ReadPost>, p: ReadPost)
    ensures Returned(posted + [p]) == Returned(posted) + p.bytes
  {
    assert (posted + [p])[..|posted|] == posted;
  }

  lemma {:induction false} NothingFilled(readers: seq<Reader>)
    requires forall i :: 0 <= i < |readers| ==> readers[i].fill == []
    ensures Filled(readers) == []
    decreases |readers|
  {
    if readers != [] {
      NothingFilled(readers[1..]);
    }
  }

  /** Only the front read holds bytes. */
  lemma FrontOnly(r: Receiver, cfg: Config)
    requires ReaderInv(r, cfg)
    ensures Filled(r.readers) == if r.readers == [] then [] else r.readers[0].fill
    ensures r.edge <= r.head + cfg.receiveBuffer
  {
    if r.readers != [] {
      NothingFilled(r.readers[1..]);
    }
  }

  lemma Fits(r: Receiver, cfg: Config)
    requires ReaderInv(r, cfg)
    ensures FillsFit(r)
  {
  }

  lemma CompleteKeeps(r: Receiver, cfg: Config)
    requires ReaderCore(r, cfg) && r.readers != []
    ensures ReaderInv(Complete(r), cfg)
    ensures Delivered(Complete(r)) == Delivered(r)
  {
    var f := r.readers[0];
    var t := Complete(r);
    ReturnedSnoc(r.posted, ReadPost(f.id, Success, f.fill));
    assert Returned(t.posted) == Returned(r.posted) + f.fill;
    assert Delivered(t) == Delivered(r);
  }

  lemma FrontGrows(readers: seq<Reader>, d: seq<byte>)
    requires readers != [] && forall i :: 1 <= i < |readers| ==> readers[i].fill == []
    ensures Filled(readers[0 := readers[0].(fill := readers[0].fill + d)]) == Filled(readers) + d
  {
    NothingFilled(readers[1..]);
    var grown := readers[0 := readers[0].(fill := readers[0].fill + d)];
    assert grown[1..] == readers[1..];
  }

  lemma PullAdvances(r: Receiver, max: nat)
    requires Available(r)
    ensures AfterPull(r, max).head == r.head + |Pulled(r, max)|
    ensures AfterPull(r, max).posted == r.posted && AfterPull(r, max).edge == r.edge
  {
  }

  lemma FillFrontKeeps(r: Receiver, cfg: Config)
    requires ReaderInv(r, cfg) && Available(r) && r.readers != [] && !Full(r)
    ensures ReaderCore(FillFront(r), cfg)
    ensures Delivered(FillFront(r)) == Delivered(r) + Pulled(r, r.readers[0].size - |r.readers[0].fill|)
  {
    hide Returned, Filled, Pulled, AfterPull, Available;
    var max := r.readers[0].size - |r.readers[0].fill|;
    FrontGrows(r.readers, Pulled(r, max));
    PullAdvances(r, max);
  }

  /** An empty fragment that is mapped shuts out the real one under its handle, which is acknowledged all the same. */
  lemma HollowShutsOut(r: Receiver, h: nat, d: seq<byte>)
    requires h in r.data && r.data[h] == []
    ensures OnMove(r, h, d) == r.(acks := r.acks + {h})
  {
  }

  lemma StepKeeps(r: Receiver, cfg: Config)
    requires ReaderInv(r, cfg) && Available(r) && r.readers != []
    ensures ReaderInv(Step(r), cfg)
  {
    if Full(r) {
      CompleteKeeps(r, cfg);
    } else {
      FillFrontKeeps(r, cfg);
      CompleteKeeps(FillFront(r), cfg);
    }
  }

  /** `transmit` stops only when no read is left or the next byte is missing. */
  lemma {:induction false} TransmitKeeps(r: Receiver, cfg: Config)
    requires ReaderInv(r, cfg)
    ensures ReaderInv(Transmit(r), cfg) && Quiet(Transmit(r))
    decreases |r.readers|, |r.data|
  {
    if Available(r) && r.readers != [] {
      StepKeeps(r, cfg);
      TransmitKeeps(Step(r), cfg);
    }
  }

  /** Reads are only ever given more. */
  lemma {:induction false} TransmitDelivers(r: Receiver, cfg: Config)
    requires ReaderInv(r, cfg)
    ensures Delivered(r) <= Delivered(Transmit(r))
    decreases |r.readers|, |r.data|
  {
    if Available(r) && r.readers != [] {
      StepKeeps(r, cfg);
      if Full(r) {
        CompleteKeeps(r, cfg);
      } else {
        FillFrontKeeps(r, cfg);
        CompleteKeeps(FillFront(r), cfg);
      }
      hide Delivered, ReaderInv;
      assert Delivered(r) <= Delivered(Step(r));
      TransmitDelivers(Step(r), cfg);
    }
  }

  /** Serving reads leaves the tail where it is. */
  lemma {:induction false} TransmitTail(r: Receiver)
    requires FillsFit(r)
    ensures Transmit(r).tail == r.tail
    decreases |r.readers|, |r.data|
  {
    hide FillsFit;
    TransmitUnfolds(r);
    if Available(r) && r.readers != [] {
      StepTail(r);
      TransmitTail(Step(r));
    }
  }

  lemma StepTail(r: Receiver)
    requires FillsFit(r) && Available(r) && r.readers != []
    ensures Step(r).tail == r.tail
  {
    FrontFits(r);
    hide FillsFit;
  }

  lemma FrontFits(r: Receiver)
    requires FillsFit(r) && r.readers != []
    ensures |r.readers[0].fill| <= r.readers[0].size
  {
  }

  lemma CallsDeliver(r: Receiver, secs: seq<Section>, size: nat, id: nat, cfg: Config)
    requires ReaderInv(r, cfg)
    ensures Delivered(r) <= Delivered(Parse(r, secs, cfg))
    ensures Delivered(r) <= Delivered(Append(r, size, id))
  {
    ScanKeepsReaders(r, secs, cfg);
    TransmitDelivers(Scan(r, secs, cfg), cfg);
    EnqueueKeeps(r, size, id, cfg);
    TransmitDelivers(r.(readers := r.readers + [Reader(size, [], id)]), cfg);
  }

  lemma InitKeeps(cfg: Config)
    ensures ReaderInv(InitReceiver(cfg), cfg) && Quiet(InitReceiver(cfg))
  {
  }

  lemma ParseKeeps(r: Receiver, secs: seq<Section>, cfg: Config)
    requires ReaderInv(r, cfg)
    ensures ReaderInv(Parse(r, secs, cfg), cfg) && Quiet(Parse(r, secs, cfg))
  {
    ScanKeepsReaders(r, secs, cfg);
    TransmitKeeps(Scan(r, secs, cfg), cfg);
  }

  lemma EnqueueKeeps(r: Receiver, size: nat, id: nat, cfg: Config)
    requires ReaderInv(r, cfg)
    ensures var t := r.(readers := r.readers + [Reader(size, [], id)]);
            ReaderInv(t, cfg) && Delivered(t) == Delivered(r)
  {
    var t := r.(readers := r.readers + [Reader(size, [], id)]);
    FrontOnly(r, cfg);
    NothingFilled(t.readers[1..]);
  }

  lemma AppendKeeps(r: Receiver, size: nat, id: nat, cfg: Config)
    requires ReaderInv(r, cfg)
    ensures ReaderInv(Append(r, size, id), cfg) && Quiet(Append(r, size, id))
  {
    EnqueueKeeps(r, size, id, cfg);
    TransmitKeeps(r.(readers := r.readers + [Reader(size, [], id)]), cfg);
  }

  lemma {:induction false} EchoMovesFrame(r: Receiver, room: nat)
    ensures var b := EchoMoves(r, room);
            && b.receiver.(acks := r.acks) == r
            && b.receiver.acks <= r.acks
            && b.room + SizeOfAll(b.sections) == room
            && (forall x :: x in b.sections ==> x.MoveEcho? && x.cursor in r.acks)
    decreases |r.acks|
  {
    hide EchoMoves;
    EchoMovesUnfolds(r, room);
    if !(r.acks == {} || room < SECTION_HEADER + VALUE_SIZE) {
      var h := MinOf(r.acks);
      var t, left := r.(acks := r.acks - {h}), room - SizeOf(MoveEcho(h));
      EchoMovesFrame(t, left);
      assert EchoMoves(r, room).sections[1..] == EchoMoves(t, left).sections;
    }
  }

  lemma ImbueFrame(r: Receiver, room: nat, now: nat, repeat: nat)
    ensures var b := Imbue(r, room, now, repeat);
            && b.receiver.(acks := r.acks, edgeTime := r.edgeTime) == r
            && b.receiver.acks <= r.acks
            && (b.receiver.edgeTime == Never ==> r.edgeTime == Never)
            && b.room + SizeOfAll(b.sections) == room
            && (forall x :: x in b.sections ==> (x.MoveEcho? && x.cursor in r.acks) || x == Edge(r.edge))
  {
    EchoMovesFrame(r, room);
    var b := EchoMoves(r, room);
    SizeOfAllAppend(b.sections, [Edge(b.receiver.edge)]);
    assert SizeOfAll([Edge(b.receiver.edge)]) == SizeOf(Edge(b.receiver.edge)) + SizeOfAll([]);
  }

  lemma ImbueKeeps(r: Receiver, room: nat, now: nat, repeat: nat, cfg: Config)
    requires ReaderInv(r, cfg) && Quiet(r)
    ensures ReaderInv(Imbue(r, room, now, repeat).receiver, cfg) && Quiet(Imbue(r, room, now, repeat).receiver)
  {
    ImbueFrame(r, room, now, repeat);
  }

  // ---------------------------------------------------------------- what is acknowledged, refused, announced

  /** A packet of which no fragment is refused has all its fragments acknowledged, and no others. */
  lemma {:induction false} ScanAcks(r: Receiver, secs: seq<Section>, cfg: Config)
    requires Scan(r, secs, cfg).alarms == r.alarms
    ensures forall h :: h in Scan(r, secs, cfg).acks <==> h in r.acks || exists d :: Move(h, d) in secs
    decreases |secs|
  {
    hide Refuses, Place;
    if secs != [] {
      HearQuietly(r, secs[0]);
      assert |r.alarms + [NoBufferSpace]| > |r.alarms|;
      if !(secs[0].Move? && Refuses(r, secs[0].handle, |secs[0].fragment|, cfg)) {
        HearAcks(r, secs[0]);
        ScanAcks(Hear(r, secs[0]), secs[1..], cfg);
        assert forall x :: x in secs <==> x == secs[0] || x in secs[1..];
      }
    }
  }

  lemma HearAcks(r: Receiver, x: Section)
    ensures forall h :: h in Hear(r, x).acks <==> h in r.acks || (x.Move? && x.handle == h)
  {
  }

  /**
   * A fragment that starts at the tail or behind it is refused exactly if it ends before the head or beyond the receive
   * buffer: it is then neither mapped nor acknowledged, and the rest of the packet is not heard. Otherwise it is mapped
   * unless something is mapped at its place, and acknowledged in either case.
   */
  lemma BeyondIsRefused(r: Receiver, h: nat, d: seq<byte>, rest: seq<Section>, cfg: Config)
    requires h >= r.tail
    ensures var t := Scan(r, [Move(h, d)] + rest, cfg);
            if r.head <= h + |d| <= r.head + cfg.receiveBuffer then
              var u := Hear(r, Move(h, d));
              && t == Scan(u, rest, cfg) && h in u.acks && u.alarms == r.alarms
              && (h >= r.head && h !in r.data ==> u.data == r.data[h := d])
              && (!(h >= r.head && h !in r.data) ==> u.data == r.data && u.tail == r.tail)
            else t == r.(alarms := r.alarms + [NoBufferSpace])
  {
    var secs := [Move(h, d)] + rest;
    assert secs[0] == Move(h, d) && secs[1..] == rest;
  }

  lemma StepAcks(r: Receiver)
    requires FillsFit(r) && Available(r) && r.readers != []
    ensures Step(r).acks == r.acks
  {
    if !Full(r) {
      FrontFits(r);
    }
    hide FillsFit;
  }

  lemma {:induction false} TransmitAcks(r: Receiver)
    requires FillsFit(r)
    ensures Transmit(r).acks == r.acks
    decreases |r.readers|, |r.data|
  {
    hide FillsFit, Available, Step;
    TransmitUnfolds(r);
    if Available(r) && r.readers != [] {
      StepAcks(r);
      TransmitAcks(Step(r));
    }
  }

  lemma StepEdge(r: Receiver)
    requires Available(r) && r.readers != [] && FillsFit(r)
    ensures var t := Step(r); r.edge <= t.edge && t.edgeTime == if t.edge > r.edge then At(0) else r.edgeTime
  {
    hide Available, AfterPull, Pulled;
    if !Full(r) {
      FrontFits(r);
      EdgeFrame(r);
    }
  }

  lemma EdgeFrame(r: Receiver)
    requires Available(r) && r.readers != [] && |r.readers[0].fill| < r.readers[0].size
    ensures FillFront(r).edge == r.edge && FillFront(r).edgeTime == r.edgeTime
  {
  }

  /** Serving reads announces the edge again, at once, exactly if it has moved. */
  lemma {:induction false} TransmitEdge(r: Receiver)
    requires FillsFit(r)
    ensures var t := Transmit(r); r.edge <= t.edge && t.edgeTime == if t.edge > r.edge then At(0) else r.edgeTime
    decreases |r.readers|, |r.data|
  {
    hide FillsFit, Available, Step;
    TransmitUnfolds(r);
    if Available(r) && r.readers != [] {
      StepEdge(r);
      TransmitEdge(Step(r));
    }
  }

  // ---------------------------------------------------------------- error

  lemma {:induction false} ReturnedAppend(a: seq<ReadPost>, b: seq<ReadPost>)
    ensures Returned(a + b) == Returned(a) + Returned(b)
    decreases |b|
  {
    if b == [] {
      assert a + b == a;
    } else {
      assert (a + b)[..|a + b| - 1] == a + b[..|b| - 1];
      ReturnedAppend(a, b[..|b| - 1]);
    }
  }

  lemma {:induction false} AbortsReturn(readers: seq<Reader>, code: Code)
    ensures Returned(Aborts(readers, code)) == Filled(readers)
    decreases |readers|
  {
    if readers != [] {
      var p := ReadPost(readers[0].id, code, readers[0].fill);
      AbortsReturn(readers[1..], code);
      ReturnedAppend([p], Aborts(readers[1..], code));
      assert Returned([p]) == p.bytes;
    }
  }

  /** `error` hands every begun read back with its bytes: nothing placed is withdrawn. */
  lemma ErrorDelivers(r: Receiver, code: Code)
    ensures Delivered(Error(r, code)) == Delivered(r) && Error(r, code).tail == r.tail
  {
    AbortsReturn(r.readers, code);
    ReturnedAppend(r.posted, Aborts(r.readers, code));
  }

  // ---------------------------------------------------------------- reads in turn

  /** A read as its caller asked for it. */
  datatype Ask = Ask(id: nat, size: nat)

  /**
   * The reads are answered in the order in which they were asked: a success has filled the whole buffer, a failure
   * carries one of the codes given and the bytes it had got.
   */
  ghost predicate Served(posted: seq<ReadPost>, readers: seq<Reader>, asked: seq<Ask>, codes: set<Code>) {
    && |posted| + |readers| == |asked|
    && (forall i :: 0 <= i < |posted| ==> Answers(posted[i], asked[i], codes))
    && (forall i :: 0 <= i < |readers| ==> Waits(readers[i], asked[|posted| + i]))
  }

  ghost predicate Answers(p: ReadPost, a: Ask, codes: set<Code>) {
    && p.id == a.id
    && if p.code == Success then |p.bytes| == a.size else p.code in codes && |p.bytes| <= a.size
  }

  ghost predicate Waits(f: Reader, a: Ask) {
    f.id == a.id && f.size == a.size && |f.fill| <= f.size
  }

  lemma CompleteServed(r: Receiver, asked: seq<Ask>, codes: set<Code>)
    requires Served(r.posted, r.readers, asked, codes) && r.readers != [] && Full(r)
    ensures var t := Complete(r); Served(t.posted, t.readers, asked, codes)
  {
    assert Waits(r.readers[0], asked[|r.posted|]);
  }

  lemma FillServed(r: Receiver, asked: seq<Ask>, codes: set<Code>)
    requires Served(r.posted, r.readers, asked, codes) && Available(r) && r.readers != [] && !Full(r)
    ensures |r.readers[0].fill| < r.readers[0].size
    ensures var t := FillFront(r); Served(t.posted, t.readers, asked, codes)
  {
    assert Waits(r.readers[0], asked[|r.posted|]);
  }

  lemma {:induction false} TransmitServed(r: Receiver, asked: seq<Ask>, codes: set<Code>)
    requires FillsFit(r) && Served(r.posted, r.readers, asked, codes)
    ensures var t := Transmit(r); Served(t.posted, t.readers, asked, codes)
    decreases |r.readers|, |r.data|
  {
    hide FillsFit, Served, Available;
    TransmitUnfolds(r);
    if Available(r) && r.readers != [] {
      StepServed(r, asked, codes);
      TransmitServed(Step(r), asked, codes);
    }
  }

  lemma StepServed(r: Receiver, asked: seq<Ask>, codes: set<Code>)
    requires FillsFit(r) && Served(r.posted, r.readers, asked, codes) && Available(r) && r.readers != []
    ensures var t := Step(r); Served(t.posted, t.readers, asked, codes)
  {
    hide Served, Available;
    if Full(r) {
      CompleteServed(r, asked, codes);
    } else {
      FillServed(r, asked, codes);
      if Full(FillFront(r)) {
        CompleteServed(FillFront(r), asked, codes);
      }
    }
  }

  lemma AppendServed(r: Receiver, size: nat, id: nat, asked: seq<Ask>, codes: set<Code>)
    requires FillsFit(r) && Served(r.posted, r.readers, asked, codes)
    ensures var t := Append(r, size, id); Served(t.posted, t.readers, asked + [Ask(id, size)], codes)
  {
    hide Transmit;
    TransmitServed(r.(readers := r.readers + [Reader(size, [], id)]), asked + [Ask(id, size)], codes);
  }

  lemma ParseServed(r: Receiver, secs: seq<Section>, asked: seq<Ask>, codes: set<Code>, cfg: Config)
    requires FillsFit(r) && Served(r.posted, r.readers, asked, codes)
    ensures var t := Parse(r, secs, cfg); Served(t.posted, t.readers, asked, codes)
  {
    hide Transmit, Scan, Served;
    ScanKeepsReaders(r, secs, cfg);
    TransmitServed(Scan(r, secs, cfg), asked, codes);
  }

  lemma {:induction false} AbortAt(readers: seq<Reader>, code: Code, i: nat)
    requires i < |readers|
    ensures |Aborts(readers, code)| == |readers|
    ensures Aborts(readers, code)[i] == ReadPost(readers[i].id, code, readers[i].fill)
    decreases |readers|
  {
    if |readers| > 1 {
      AbortAt(readers[1..], code, if i == 0 then 0 else i - 1);
    }
  }

  /** `error` answers every waiting read in its turn, with the code given and the bytes its buffer then holds. */
  lemma ErrorAborts(r: Receiver, code: Code, i: nat)
    requires i < |r.readers|
    ensures var t := Error(r, code);
            && |t.posted| == |r.posted| + |r.readers| && t.posted[..|r.posted|] == r.posted
            && t.posted[|r.posted| + i] == ReadPost(r.readers[i].id, code, r.readers[i].fill)
            && t.readers == []
  {
    hide Aborts;
    AbortAt(r.readers, code, i);
  }

  lemma ErrorServed(r: Receiver, code: Code, asked: seq<Ask>, codes: set<Code>)
    requires Served(r.posted, r.readers, asked, codes) && code in codes && code != Success
    ensures var t := Error(r, code); Served(t.posted, t.readers, asked, codes)
  {
    hide Served, Error;
    var t := Error(r, code);
    ErrorLength(r, code);
    ServedAll(r.posted, r.readers, asked, codes);
    forall k | |r.posted| <= k < |t.posted| ensures Answers(t.posted[k], asked[k], codes) {
      ErrorAborts(r, code, k - |r.posted|);
      WaitsAt(r, asked, codes, k - |r.posted|);
    }
    Aborted(r.posted, t.posted, r.readers, asked, codes);
  }

  lemma ErrorLength(r: Receiver, code: Code)
    ensures var t := Error(r, code);
            |t.posted| == |r.posted| + |r.readers| && t.posted[..|r.posted|] == r.posted && t.readers == []
  {
    if r.readers != [] {
      ErrorAborts(r, code, 0);
    }
  }

  lemma ServedAll(posted: seq<ReadPost>, readers: seq<Reader>, asked: seq<Ask>, codes: set<Code>)
    requires Served(posted, readers, asked, codes)
    ensures |posted| + |readers| == |asked|
  {
  }

  lemma WaitsAt(r: Receiver, asked: seq<Ask>, codes: set<Code>, i: nat)
    requires Served(r.posted, r.readers, asked, codes) && i < |r.readers|
    ensures Waits(r.readers[i], asked[|r.posted| + i])
  {
  }

  lemma Aborted(posted: seq<ReadPost>, after: seq<ReadPost>, readers: seq<Reader>, asked: seq<Ask>, codes: set<Code>)
    requires Served(posted, readers, asked, codes)
    requires |after| == |posted| + |readers| && after[..|posted|] == posted
    requires forall k :: |posted| <= k < |after| ==> Answers(after[k], asked[k], codes)
    ensures Served(after, [], asked, codes)
  {
    hide Answers, Waits;
    forall k | 0 <= k < |after| ensures Answers(after[k], asked[k], codes) {
      if k < |posted| {
        assert after[k] == after[..|posted|][k];
      }
    }
  }

  // ---------------------------------------------------------------- readable

  /** The number of bytes that follow the stream head without a gap. */
  ghost predicate IsRun(r: Receiver, n: nat) {
    && (forall o :: r.head <= o < r.head + n ==> Covered(r, o))
    && !Covered(r, r.head + n)
  }

  /** Stream offset `o` is buffered. */
  ghost predicate Covered(r: Receiver, o: nat) {
    exists k :: k in r.data && k <= o < k + |r.data[k]|
  }

  /** In every state the public operations leave, `readable` is the gapless byte count if no read waits, else 0. */
  lemma ReadableMeaning(r: Receiver, cfg: Config)
    requires ReaderInv(r, cfg) && Quiet(r)
    ensures Readable(r) == if r.readers == [] then ReadableBytes(r) else 0
  {
    if r.readers != [] {
      assert !Available(r);
      assert r.data.Keys == {} <==> r.data == map[];
    }
  }

  ghost predicate DisjointEntries(data: map<nat, seq<byte>>) {
    && (forall k :: k in data ==> data[k] != [])
    && (forall j, k :: j in data && k in data && j < k ==> j + |data[j]| <= k)
  }

  /** Nothing reaches over `cursor` when the entries from there on start later. */
  lemma GapAt(r: Receiver, keys: set<nat>, cursor: nat)
    requires forall k :: k in r.data && k !in keys ==> k + |r.data[k]| <= cursor
    requires forall k :: k in keys ==> cursor < k
    ensures !Covered(r, cursor)
  {
  }

  /** Taking the entry at `cursor` out of `keys` keeps every other one beyond its end. */
  lemma PastEntry(data: map<nat, seq<byte>>, keys: set<nat>, cursor: nat)
    requires DisjointEntries(data) && keys <= data.Keys && cursor in keys
    requires forall k :: k in keys ==> cursor <= k
    ensures forall k :: k in keys - {cursor} ==> cursor + |data[cursor]| <= k
  {
  }

  lemma {:induction false} RunEndMeaning(r: Receiver, keys: set<nat>, cursor: nat)
    requires DisjointEntries(r.data) && keys <= r.data.Keys
    requires forall k :: k in r.data && k !in keys ==> k + |r.data[k]| <= cursor
    requires forall k :: k in keys ==> cursor <= k
    ensures forall o :: cursor <= o < RunEnd(r.data, keys, cursor) ==> Covered(r, o)
    ensures !Covered(r, RunEnd(r.data, keys, cursor))
    decreases |keys|
  {
    hide DisjointEntries, Covered;
    if keys != {} && MinOf(keys) == cursor {
      var next := cursor + |r.data[cursor]|;
      PastEntry(r.data, keys, cursor);
      RunEndMeaning(r, keys - {cursor}, next);
      forall o | cursor <= o < RunEnd(r.data, keys, cursor) ensures Covered(r, o) {
        if o < next {
          EntryCovers(r, cursor, o);
        }
      }
    } else {
      GapAt(r, keys, cursor);
    }
  }

  lemma EntryCovers(r: Receiver, k: nat, o: nat)
    requires k in r.data && k <= o < k + |r.data[k]|
    ensures Covered(r, o)
  {
  }

  /** With disjoint entries, `readable_bytes` counts exactly the bytes that follow the head without a gap. */
  lemma ReadableBytesMeaning(r: Receiver)
    requires DisjointEntries(r.data) && forall k :: k in r.data ==> r.head <= k
    ensures IsRun(r, ReadableBytes(r))
  {
    RunEndMeaning(r, r.data.Keys, r.head);
  }

  // ---------------------------------------------------------------- how much is buffered

  /** The bytes of the entries under `keys`. */
  ghost function Buffered(data: map<nat, seq<byte>>, keys: set<nat>): nat
    requires keys <= data.Keys
    decreases |keys|
  {
    if keys == {} then 0
    else var k := MinOf(keys); |data[k]| + Buffered(data, keys - {k})
  }

  /** Disjoint entries inside [lo, hi) hold at most hi - lo bytes. */
  lemma {:induction false} BufferedFits(data: map<nat, seq<byte>>, keys: set<nat>, lo: nat, hi: nat)
    requires keys <= data.Keys && DisjointEntries(data) && lo <= hi
    requires forall k :: k in keys ==> lo <= k && k + |data[k]| <= hi
    ensures Buffered(data, keys) <= hi - lo
    decreases |keys|
  {
    if keys != {} {
      var k: nat := MinOf(keys);
      BufferedFits(data, keys - {k}, k + |data[k]|, hi);
    }
  }
}
