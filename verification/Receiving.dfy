/** The receiving half of a UDP channel, as functions on its state. */
module Receiving {
  import opened Containers
  import opened Protocol

  /** A queued read; `fill` holds the bytes already placed in the caller's buffer. */
  datatype Reader = Reader(size: nat, fill: seq<byte>, id: nat)

  /** A completion handed to the caller of `read`, with the bytes its buffer then holds. */
  datatype ReadPost = ReadPost(id: nat, code: Code, bytes: seq<byte>)

  datatype Receiver = Receiver(
    head: nat,
    tail: nat,
    data: map<nat, seq<byte>>,
    acks: set<nat>,
    readers: seq<Reader>,
    edge: nat,
    edgeTime: Time,
    posted: seq<ReadPost>,
    alarms: seq<Code>)

  function InitReceiver(cfg: Config): Receiver {
    Receiver(0, 0, map[], {}, [], cfg.receiveBuffer, At(0), [], [])
  }

  // ---------------------------------------------------------------- reassembly

  /** The next byte of the stream is buffered. */
  predicate Available(r: Receiver) {
    r.data != map[] && MinOf(r.data.Keys) == r.head
  }

  /** The bytes taken by `streambuf::pull`. */
  function Pulled(r: Receiver, max: nat): (d: seq<byte>)
    requires Available(r)
    ensures |d| <= max
  {
    var top := r.data[r.head];
    if |top| <= max then top else top[..max]
  }

  /** The state `streambuf::pull` leaves: the unread rest of an entry is keyed by its own offset. */
  function AfterPull(r: Receiver, max: nat): Receiver
    requires Available(r)
  {
    var top := r.data[r.head];
    if |top| <= max then
      r.(head := r.head + |top|, data := r.data - {r.head})
    else
      r.(head := r.head + max, data := Emplace(r.data - {r.head}, r.head + max, top[max..]))
  }

  /** `streambuf::map` turns a fragment away when it ends beyond the receive buffer; the distance is unsigned. */
  predicate Refuses(r: Receiver, handle: nat, size: nat, cfg: Config) {
    handle >= r.tail && (handle + size < r.head || handle + size > r.head + cfg.receiveBuffer)
  }

  /** `streambuf::map` for a fragment that is not refused. */
  function Place(r: Receiver, handle: nat, fragment: seq<byte>): Receiver {
    if handle >= r.head && handle !in r.data then
      var data := r.data[handle := fragment];
      assert handle in data.Keys;
      var last := MaxOf(data.Keys);
      r.(data := data, tail := last + |data[last]|)
    else r
  }

  // ---------------------------------------------------------------- transmit

  predicate Full(r: Receiver)
    requires r.readers != []
  {
    r.readers[0].size == |r.readers[0].fill|
  }

  /** The front reader is done: return its window and post its handler. */
  function Complete(r: Receiver): Receiver
    requires r.readers != []
  {
    var f := r.readers[0];
    var r1 := if |f.fill| > 0 then r.(edge := r.edge + |f.fill|, edgeTime := At(0)) else r;
    r1.(readers := r.readers[1..], posted := r.posted + [ReadPost(f.id, Success, f.fill)])
  }

  function CompleteIfFull(r: Receiver): Receiver
    requires r.readers != []
  {
    if Full(r) then Complete(r) else r
  }

  /** Move bytes of one entry into the front reader. */
  function FillFront(r: Receiver): Receiver
    requires Available(r) && r.readers != [] && |r.readers[0].fill| < r.readers[0].size
  {
    var f := r.readers[0];
    var max := f.size - |f.fill|;
    AfterPull(r, max).(readers := r.readers[0 := f.(fill := f.fill + Pulled(r, max))])
  }

  predicate FillsFit(r: Receiver) {
    forall i :: 0 <= i < |r.readers| ==> |r.readers[i].fill| <= r.readers[i].size
  }

  function Step(r: Receiver): (t: Receiver)
    requires Available(r) && r.readers != [] && FillsFit(r)
    ensures FillsFit(t)
    ensures |t.readers| < |r.readers| || (|t.readers| == |r.readers| && |t.data| < |r.data|)
  {
    if Full(r) then Complete(r)
    else
      var t := FillFront(r);
      assert |r.data[r.head]| <= r.readers[0].size - |r.readers[0].fill| ==> t.data.Keys == r.data.Keys - {r.head};
      CompleteIfFull(t)
  }

  /** `transmit`: feed readers while the next byte is at hand. */
  function Transmit(r: Receiver): (t: Receiver)
    requires FillsFit(r)
    ensures FillsFit(t)
    decreases |r.readers|, |r.data|
  {
    if Available(r) && r.readers != [] then Transmit(Step(r)) else r
  }

  /** One round of `transmit`. */
  lemma TransmitUnfolds(r: Receiver)
    requires FillsFit(r)
    ensures Transmit(r) == if Available(r) && r.readers != [] then Transmit(Step(r)) else r
  {
  }

  // ---------------------------------------------------------------- parse, imbue

  function OnMove(r: Receiver, handle: nat, fragment: seq<byte>): Receiver {
    var t := Place(r, handle, fragment);
    t.(acks := t.acks + {handle})
  }

  function OnEdgeEcho(r: Receiver, range: nat): Receiver {
    if r.edge == range then r.(edgeTime := Never) else r
  }

  lemma {:induction false} ScanKeepsFit(r: Receiver, secs: seq<Section>, cfg: Config)
    requires FillsFit(r)
    ensures FillsFit(Scan(r, secs, cfg))
  {
    ScanKeepsReaders(r, secs, cfg);
  }

  /** One section that is not a refused fragment. */
  function Hear(r: Receiver, x: Section): Receiver {
    match x
    case Move(h, d) => OnMove(r, h, d)
    case EdgeEcho(v) => OnEdgeEcho(r, v)
    case _ => r
  }

  /** The sections of one packet up to the end or to the first refused fragment. */
  function Scan(r: Receiver, secs: seq<Section>, cfg: Config): Receiver
    decreases |secs|
  {
    if secs == [] then r
    else if secs[0].Move? && Refuses(r, secs[0].handle, |secs[0].fragment|, cfg) then
      r.(alarms := r.alarms + [NoBufferSpace])
    else Scan(Hear(r, secs[0]), secs[1..], cfg)
  }

  lemma {:induction false} ScanKeepsReaders(r: Receiver, secs: seq<Section>, cfg: Config)
    ensures var t := Scan(r, secs, cfg);
            t.readers == r.readers && t.posted == r.posted && t.edge == r.edge && t.head == r.head
    decreases |secs|
  {
    if secs != [] {
      ScanKeepsReaders(Hear(r, secs[0]), secs[1..], cfg);
    }
  }

  /** A refused fragment ends the scan: what stands behind it makes no difference. */
  lemma {:induction false} ScanStops(r: Receiver, secs: seq<Section>, n: nat, cfg: Config)
    requires n <= |secs| && Scan(r, secs[..n], cfg).alarms != r.alarms
    ensures Scan(r, secs, cfg) == Scan(r, secs[..n], cfg)
    decreases n
  {
    hide Refuses, OnMove, OnEdgeEcho;
    if n > 0 {
      assert secs[..n][0] == secs[0] && secs[..n][1..] == secs[1..][..n - 1];
      if !(secs[0].Move? && Refuses(r, secs[0].handle, |secs[0].fragment|, cfg)) {
        HearQuietly(r, secs[0]);
        ScanStops(Hear(r, secs[0]), secs[1..], n - 1, cfg);
      }
    }
  }

  lemma HearQuietly(r: Receiver, x: Section)
    ensures Hear(r, x).alarms == r.alarms
  {
  }

  function Parse(r: Receiver, secs: seq<Section>, cfg: Config): Receiver
    requires FillsFit(r)
  {
    ScanKeepsReaders(r, secs, cfg);
    Transmit(Scan(r, secs, cfg))
  }

  datatype Burst = Burst(receiver: Receiver, sections: seq<Section>, room: nat)

  function EchoMoves(r: Receiver, room: nat): Burst
    decreases |r.acks|
  {
    if r.acks == {} || room < SECTION_HEADER + VALUE_SIZE then Burst(r, [], room)
    else
      var h := MinOf(r.acks);
      var b := EchoMoves(r.(acks := r.acks - {h}), room - SizeOf(MoveEcho(h)));
      b.(sections := [MoveEcho(h)] + b.sections)
  }

  lemma EchoMovesUnfolds(r: Receiver, room: nat)
    ensures EchoMoves(r, room) ==
            if r.acks == {} || room < SECTION_HEADER + VALUE_SIZE then Burst(r, [], room)
            else
              var h := MinOf(r.acks);
              var b := EchoMoves(r.(acks := r.acks - {h}), room - SizeOf(MoveEcho(h)));
              b.(sections := [MoveEcho(h)] + b.sections)
  {
  }

  /** `istreamer::imbue` into a packet with `room` bytes left after its stub. */
  function Imbue(r: Receiver, room: nat, now: nat, repeat: nat): Burst {
    var b := EchoMoves(r, room);
    if b.room >= SECTION_HEADER + VALUE_SIZE && b.receiver.edgeTime.NotAfter(now) then
      Burst(b.receiver.(edgeTime := At(now + repeat)), b.sections + [Edge(b.receiver.edge)],
            b.room - SizeOf(Edge(b.receiver.edge)))
    else b
  }

  // ---------------------------------------------------------------- append, error, queries

  function Append(r: Receiver, size: nat, id: nat): Receiver
    requires FillsFit(r)
  {
    Transmit(r.(readers := r.readers + [Reader(size, [], id)]))
  }

  function Aborts(readers: seq<Reader>, code: Code): seq<ReadPost> {
    if readers == [] then []
    else [ReadPost(readers[0].id, code, readers[0].fill)] + Aborts(readers[1..], code)
  }

  /** `error`: the tail and the advertised edge survive the reset. */
  function Error(r: Receiver, code: Code): Receiver {
    r.(readers := [], acks := {}, data := map[], head := 0, posted := r.posted + Aborts(r.readers, code))
  }

  predicate Deferred(r: Receiver) {
    r.acks != {} || r.edgeTime != Never
  }

  /** Walk the entries in key order while each starts where the previous one ended. */
  function RunEnd(data: map<nat, seq<byte>>, keys: set<nat>, cursor: nat): (end: nat)
    requires keys <= data.Keys
    ensures cursor <= end
    decreases |keys|
  {
    if keys == {} || MinOf(keys) != cursor then cursor
    else RunEnd(data, keys - {cursor}, cursor + |data[cursor]|)
  }

  function ReadableBytes(r: Receiver): nat {
    RunEnd(r.data, r.data.Keys, r.head) - r.head
  }

  /** What is left of `bytes` once the queued readers have taken their share. */
  function Unclaimed(bytes: nat, readers: seq<Reader>): nat
    requires forall i :: 0 <= i < |readers| ==> |readers[i].fill| <= readers[i].size
  {
    if bytes == 0 || readers == [] then bytes
    else Unclaimed(bytes - Min(readers[0].size - |readers[0].fill|, bytes), readers[1..])
  }

  function Readable(r: Receiver): nat
    requires FillsFit(r)
  {
    Unclaimed(ReadableBytes(r), r.readers)
  }
}
