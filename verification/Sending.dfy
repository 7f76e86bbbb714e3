/** The sending half of a UDP channel, as functions on its state. */
module Sending {
  import opened Containers
  import opened Protocol

  /** A fragment in flight. `attempt` is an 8-bit counter. */
  datatype Flight = Flight(data: seq<byte>, time: nat, attempt: nat)

  /** A queued write covering stream offsets [head, head + size). */
  datatype Writer = Writer(head: nat, size: nat, id: nat)

  /** A completion handed to the caller of `write`. */
  datatype WritePost = WritePost(id: nat, code: Code, count: nat)

  datatype Sender = Sender(
    queue: seq<seq<byte>>,
    head: nat,
    tail: nat,
    moves: map<nat, Flight>,
    writers: seq<Writer>,
    acks: set<nat>,
    range: nat,
    posted: seq<WritePost>,
    alarms: seq<Code>)

  function InitSender(): Sender {
    Sender([], 0, 0, map[], [], {}, 0, [], [])
  }

  /** The least the operations rely on: the credit covers the head, the queue spans head to tail and fits. */
  ghost predicate Sound(s: Sender, cfg: Config) {
    && s.head <= s.range
    && s.head + |Concat(s.queue)| == s.tail
    && (s.head < s.tail ==> s.tail - s.head < cfg.sendBuffer)
  }

  /** Everything below this offset has been acknowledged. */
  function Cursor(s: Sender): nat {
    if s.moves == map[] then s.head else MinOf(s.moves.Keys)
  }

  // ---------------------------------------------------------------- parse

  function Settle(s: Sender, cursor: nat): Sender
    decreases |s.writers|
  {
    if s.writers == [] || s.writers[0].head + s.writers[0].size > cursor then s
    else
      var w := s.writers[0];
      Settle(s.(writers := s.writers[1..], posted := s.posted + [WritePost(w.id, Success, w.size)]), cursor)
  }

  function OnMoveEcho(s: Sender, handle: nat): Sender {
    var s1 := s.(moves := s.moves - {handle});
    Settle(s1, Cursor(s1))
  }

  function OnEdge(s: Sender, range: nat): Sender {
    var r := Max(s.range, range);
    s.(range := r, acks := s.acks + {r})
  }

  function ParseSection(s: Sender, sec: Section): Sender {
    match sec
    case MoveEcho(h) => OnMoveEcho(s, h)
    case Edge(v) => OnEdge(s, v)
    case _ => s
  }

  function Parse(s: Sender, secs: seq<Section>): Sender
    decreases |secs|
  {
    if secs == [] then s else Parse(ParseSection(s, secs[0]), secs[1..])
  }

  // ---------------------------------------------------------------- imbue

  /** What one pass over a packet leaves behind: `ok` is false on the broken_pipe return. */
  datatype Burst = Burst(sender: Sender, sections: seq<Section>, room: nat, ok: bool)

  /** The flights a packet with `max` payload bytes left may repeat. */
  function Due(s: Sender, now: nat, max: nat): set<nat> {
    set h | h in s.moves && s.moves[h].time < now && |s.moves[h].data| <= max
  }

  function Overdue(s: Sender, now: nat): set<nat> {
    set h | h in s.moves && s.moves[h].time < now
  }

  /** The flight at h has been sent once more. */
  function Repeated(s: Sender, h: nat, time: nat): Sender
    requires h in s.moves
  {
    var f := s.moves[h];
    s.(moves := s.moves[h := f.(attempt := (f.attempt + 1) % 256, time := time)])
  }

  /** The flight at h was due although its attempts are used up. */
  function GivenUp(s: Sender, h: nat): Sender
    requires h in s.moves
  {
    var f := s.moves[h];
    s.(moves := s.moves[h := f.(attempt := (f.attempt + 1) % 256)], alarms := s.alarms + [BrokenPipe])
  }

  /** The flights the packet may repeat, given the room left in it. */
  function Eligible(s: Sender, room: nat, now: nat): (d: set<nat>)
    ensures forall h :: h in d ==> h in s.moves && SizeOf(Move(h, s.moves[h].data)) <= room && h in Overdue(s, now)
  {
    if room <= SECTION_HEADER + HANDLE_SIZE then {} else Due(s, now, room - SECTION_HEADER - HANDLE_SIZE)
  }

  function Resend(s: Sender, room: nat, now: nat, repeat: nat, limit: nat): Burst
    decreases |Overdue(s, now)|
  {
    var due := Eligible(s, room, now);
    if due == {} then Burst(s, [], room, true)
    else
      var h := MinOf(due);
      if s.moves[h].attempt == limit then Burst(GivenUp(s, h), [], room, false)
      else
        var x := Move(h, s.moves[h].data);
        OverdueShrinks(s, now, h, repeat);
        var b := Resend(Repeated(s, h, now + repeat), room - SizeOf(x), now, repeat, limit);
        b.(sections := [x] + b.sections)
  }

  /** One round of the first loop of `imbue`. */
  lemma ResendUnfolds(s: Sender, room: nat, now: nat, repeat: nat, limit: nat)
    ensures var due := Eligible(s, room, now);
            Resend(s, room, now, repeat, limit) ==
            if due == {} then Burst(s, [], room, true)
            else if s.moves[MinOf(due)].attempt == limit then Burst(GivenUp(s, MinOf(due)), [], room, false)
            else
              var x := Move(MinOf(due), s.moves[MinOf(due)].data);
              var b := Resend(Repeated(s, MinOf(due), now + repeat), room - SizeOf(x), now, repeat, limit);
              b.(sections := [x] + b.sections)
  {
    hide Overdue, Due, Eligible, Repeated, GivenUp;
  }

  lemma OverdueShrinks(s: Sender, now: nat, h: nat, repeat: nat)
    requires h in Overdue(s, now)
    ensures var t := Repeated(s, h, now + repeat);
            Overdue(t, now) == Overdue(s, now) - {h} && |Overdue(t, now)| < |Overdue(s, now)|
  {
    assert Overdue(Repeated(s, h, now + repeat), now) == Overdue(s, now) - {h};
  }

  predicate NoEmptyChunk(queue: seq<seq<byte>>) {
    forall i :: 0 <= i < |queue| ==> queue[i] != []
  }

  /** `streambuf::pull`: the bytes taken and the queue left. */
  function Pull(queue: seq<seq<byte>>, max: nat): (r: (seq<byte>, seq<seq<byte>>))
    requires queue != []
    ensures Concat(queue) == r.0 + Concat(r.1)
    ensures |r.0| <= max
    ensures max > 0 && |queue[0]| > 0 ==> |r.0| > 0
    ensures NoEmptyChunk(queue) && max > 0 ==> NoEmptyChunk(r.1)
    ensures |r.1| < |queue| || (|r.1| == |queue| && |r.1[0]| + max == |queue[0]|)
  {
    if |queue[0]| <= max then
      (queue[0], queue[1..])
    else
      var rest := [queue[0][max..]] + queue[1..];
      assert rest[1..] == queue[1..];
      assert queue[0] == queue[0][..max] + queue[0][max..];
      (queue[0][..max], rest)
  }

  /** One round of the second loop of `imbue`: cut a fragment of at most `max` bytes and fly it. */
  function CutOnce(s: Sender, max: nat, time: nat): (t: Sender)
    requires s.queue != []
    ensures max > 0 ==>
      |t.queue| < |s.queue| || (|t.queue| == |s.queue| && |t.queue[0]| < |s.queue[0]|)
    ensures s.head <= t.head && t.range == s.range && t.alarms == s.alarms && (max <= s.range - s.head ==> t.head <= t.range)
  {
    var (d, rest) := Pull(s.queue, max);
    s.(queue := rest, head := s.head + |d|, moves := Emplace(s.moves, s.head, Flight(d, time, 1)))
  }

  /** The section CutOnce puts into the packet. */
  function CutSection(s: Sender, max: nat): (x: Section)
    requires s.queue != []
    ensures SizeOf(x) <= SECTION_HEADER + HANDLE_SIZE + max && x.Move? && x.handle == s.head
  {
    Move(s.head, Pull(s.queue, max).0)
  }

  /** The most bytes the next fragment may have; 0 when no fragment may be cut. */
  function CutLimit(s: Sender, room: nat, swarm: nat): (max: nat)
    requires s.head <= s.range
    ensures max > 0 ==> s.queue != [] && s.head + max <= s.range && |s.moves| < swarm
    ensures max > 0 ==> SECTION_HEADER + HANDLE_SIZE + max <= room
  {
    if s.queue == [] || |s.moves| >= swarm || room <= SECTION_HEADER + HANDLE_SIZE then 0
    else Min(s.range - s.head, room - SECTION_HEADER - HANDLE_SIZE)
  }

  function Cut(s: Sender, room: nat, now: nat, repeat: nat, swarm: nat): Burst
    requires s.head <= s.range
    decreases |s.queue|, if s.queue == [] then 0 else |s.queue[0]|
  {
    var max := CutLimit(s, room, swarm);
    if max == 0 then
      Burst(s, [], room, true)
    else
      var x := CutSection(s, max);
      var b := Cut(CutOnce(s, max, now + repeat), room - SizeOf(x), now, repeat, swarm);
      b.(sections := [x] + b.sections)
  }

  /** One round of the second loop of `imbue`. */
  lemma CutUnfolds(s: Sender, room: nat, now: nat, repeat: nat, swarm: nat)
    requires s.head <= s.range
    ensures var max := CutLimit(s, room, swarm);
            Cut(s, room, now, repeat, swarm) ==
            if max == 0 then Burst(s, [], room, true)
            else
              var x := CutSection(s, max);
              var b := Cut(CutOnce(s, max, now + repeat), room - SizeOf(x), now, repeat, swarm);
              b.(sections := [x] + b.sections)
  {
    hide Concat, NoEmptyChunk, CutOnce, CutSection, Pull;
  }

  function EchoEdges(s: Sender, room: nat): Burst
    decreases |s.acks|
  {
    if s.acks == {} || room < SECTION_HEADER + VALUE_SIZE then
      Burst(s, [], room, true)
    else
      var v := MinOf(s.acks);
      var b := EchoEdges(s.(acks := s.acks - {v}), room - SizeOf(EdgeEcho(v)));
      b.(sections := [EdgeEcho(v)] + b.sections)
  }

  lemma EchoEdgesUnfolds(s: Sender, room: nat)
    ensures EchoEdges(s, room) ==
            if s.acks == {} || room < SECTION_HEADER + VALUE_SIZE then Burst(s, [], room, true)
            else
              var v := MinOf(s.acks);
              var b := EchoEdges(s.(acks := s.acks - {v}), room - SizeOf(EdgeEcho(v)));
              b.(sections := [EdgeEcho(v)] + b.sections)
  {
  }

  lemma {:induction false} ResendFrame(s: Sender, room: nat, now: nat, repeat: nat, limit: nat)
    ensures var b := Resend(s, room, now, repeat, limit);
            && b.room + SizeOfAll(b.sections) == room
            && SameFlights(s, b.sender)
            && b.sender.(moves := s.moves, alarms := s.alarms) == s
            && (forall x :: x in b.sections ==> x.Move? && x.handle in s.moves && x.fragment == s.moves[x.handle].data)
    decreases |Overdue(s, now)|
  {
    hide Resend, Overdue, Due, Eligible;
    ResendUnfolds(s, room, now, repeat, limit);
    var due := Eligible(s, room, now);
    if due != {} {
      var h := MinOf(due);
      if s.moves[h].attempt != limit {
        var x := Move(h, s.moves[h].data);
        var t := Repeated(s, h, now + repeat);
        OverdueShrinks(s, now, h, repeat);
        ResendFrame(t, room - SizeOf(x), now, repeat, limit);
        var b := Resend(t, room - SizeOf(x), now, repeat, limit);
        assert ([x] + b.sections)[1..] == b.sections;
      }
    }
  }

  /** The same fragments are in flight: only times and attempt counters may differ. */
  ghost predicate SameFlights(s: Sender, t: Sender) {
    && t.moves.Keys == s.moves.Keys
    && forall h :: h in s.moves ==> t.moves[h].data == s.moves[h].data
  }

  /** `ostreamer::imbue` into a packet with `room` bytes left after its stub. */
  function Imbue(s: Sender, room: nat, now: nat, repeat: nat, cfg: Config): Burst
    requires s.head <= s.range
  {
    var first := Resend(s, room, now, repeat, cfg.attempts);
    if !first.ok then first
    else
      ResendFrame(s, room, now, repeat, cfg.attempts);
      var second := Cut(first.sender, first.room, now, repeat, cfg.swarm);
      var third := EchoEdges(second.sender, second.room);
      Burst(third.sender, first.sections + second.sections + third.sections, third.room, true)
  }

  // ---------------------------------------------------------------- append, error, queries

  predicate Accepts(s: Sender, size: nat, cfg: Config)
    requires s.head <= s.tail
  {
    s.tail + size - s.head < cfg.sendBuffer
  }

  /** `append`: a zero-length buffer is queued and then reported as refused. */
  function Append(s: Sender, buffer: seq<byte>, id: nat, cfg: Config): Sender
    requires s.head <= s.tail
  {
    if Accepts(s, |buffer|, cfg) && |buffer| > 0 then
      s.(queue := s.queue + [buffer], tail := s.tail + |buffer|,
         writers := s.writers + [Writer(s.tail, |buffer|, id)])
    else
      s.(queue := if Accepts(s, |buffer|, cfg) then s.queue + [buffer] else s.queue,
         posted := s.posted + [WritePost(id, NoBufferSpace, 0)],
         alarms := s.alarms + [NoBufferSpace])
  }

  /** The share of a pending write that lies below the acknowledged cursor. */
  function Share(w: Writer, cursor: nat): nat {
    if cursor >= w.head + w.size then w.size
    else if cursor > w.head then cursor - w.head
    else 0
  }

  function Refunds(ws: seq<Writer>, cursor: nat, code: Code): seq<WritePost> {
    if ws == [] then []
    else [WritePost(ws[0].id, code, Share(ws[0], cursor))] + Refunds(ws[1..], cursor, code)
  }

  /** `error`: the credit (`range`) and pending echoes survive, everything else is dropped. */
  function Error(s: Sender, code: Code): Sender {
    s.(queue := [], head := 0, tail := 0, moves := map[], writers := [],
       posted := s.posted + Refunds(s.writers, Cursor(s), code))
  }

  predicate Deferred(s: Sender) {
    s.moves != map[] || s.acks != {} || (s.queue != [] && s.head < s.range)
  }

  function Writable(s: Sender, cfg: Config): nat
    requires s.head <= s.tail <= s.head + cfg.sendBuffer
  {
    if s.range > s.tail then Min(s.range - s.tail, cfg.sendBuffer - (s.tail - s.head)) else 0
  }
}
