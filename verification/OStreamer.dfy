/** The sending half of a UDP channel as an object; each method is proved against Sending. */
module OStreaming {
  import opened Containers
  import opened Protocol
  import M = Sending
  import SenderLaws

  class OStreamer {
    const cfg: Config
    var queue: seq<seq<byte>>
    var head: nat
    var tail: nat
    var moves: map<nat, M.Flight>
    var writers: seq<M.Writer>
    var acks: set<nat>
    var range: nat
    var posted: seq<M.WritePost>
    var alarms: seq<Code>

    function State(): M.Sender
      reads this
    {
      M.Sender(queue, head, tail, moves, writers, acks, range, posted, alarms)
    }

    ghost predicate Valid()
      reads this
    {
      M.Sound(State(), cfg)
    }

    lemma HeadCovered()
      requires Valid()
      ensures head <= range
    {
    }

    constructor (cfg: Config)
      ensures Valid() && this.cfg == cfg && State() == M.InitSender()
    {
      this.cfg := cfg;
      queue, head, tail, moves, writers, acks, range, posted, alarms := [], 0, 0, map[], [], {}, 0, [], [];
    }

    // ---------------------------------------------------------------- streambuf

    method Pull(max: nat) returns (data: seq<byte>)
      requires queue != []
      modifies this
      ensures (data, queue) == M.Pull(old(queue), max)
      ensures State() == old(State()).(queue := queue, head := old(head) + |data|)
    {
      var top := queue[0];
      if |top| <= max {
        head := head + |top|;
        queue := queue[1..];
        return top;
      }
      head := head + max;
      data := top[..max];
      queue := queue[0 := top[max..]];
      assert queue == [top[max..]] + old(queue)[1..];
    }

    method Add(buffer: seq<byte>) returns (end: nat)
      requires head <= tail
      modifies this
      ensures end == tail
      ensures State() == if M.Accepts(old(State()), |buffer|, cfg)
                         then old(State()).(queue := old(queue) + [buffer], tail := old(tail) + |buffer|)
                         else old(State())
    {
      if tail + |buffer| - head >= cfg.sendBuffer {
        return tail;
      }
      tail := tail + |buffer|;
      queue := queue + [buffer];
      end := tail;
    }

    method Clear()
      modifies this
      ensures State() == old(State()).(queue := [], head := 0, tail := 0)
    {
      queue, head, tail := [], 0, 0;
    }

    // ---------------------------------------------------------------- parse

    method Cursor() returns (cursor: nat)
      ensures cursor == M.Cursor(State())
    {
      cursor := if moves == map[] then head else MinOf(moves.Keys);
    }

    method Parse(secs: seq<Section>)
      requires Valid()
      modifies this
      ensures Valid() && State() == M.Parse(old(State()), secs)
    {
      SenderLaws.ParseSound(State(), secs, cfg);
      var i := 0;
      while i < |secs|
        invariant 0 <= i <= |secs|
        invariant M.Parse(State(), secs[i..]) == M.Parse(old(State()), secs)
      {
        ghost var was := State();
        assert secs[i..][0] == secs[i] && secs[i..][1..] == secs[i + 1..];
        match secs[i] {
        case MoveEcho(handle) =>
          moves := moves - {handle};
          ghost var erased := State();
          var cursor := Cursor();
          while writers != [] && writers[0].head + writers[0].size <= cursor
            invariant M.Settle(State(), cursor) == M.Settle(erased, cursor)
            decreases |writers|
          {
            posted := posted + [M.WritePost(writers[0].id, Success, writers[0].size)];
            writers := writers[1..];
          }
        case Edge(value) =>
          range := Max(range, value);
          acks := acks + {range};
        case _ =>
        }
        assert State() == M.ParseSection(was, secs[i]);
        i := i + 1;
      }
    }

    // ---------------------------------------------------------------- imbue

    /** The first flight, in handle order, that is due and fits. */
    method FindDue(max: nat, now: nat) returns (found: bool, h: nat)
      ensures found <==> M.Due(State(), now, max) != {}
      ensures found ==> h in moves && h == MinOf(M.Due(State(), now, max))
    {
      var rest := moves.Keys;
      found, h := false, 0;
      while rest != {}
        invariant rest <= moves.Keys
        invariant M.Due(State(), now, max) <= rest
        decreases |rest|
      {
        h := MinOf(rest);
        if moves[h].time < now && |moves[h].data| <= max {
          assert h in M.Due(State(), now, max);
          return true, h;
        }
        rest := rest - {h};
      }
    }

    method Resend(room: nat, now: nat, repeat: nat, limit: nat) returns (sections: seq<Section>, left: nat, ok: bool)
      modifies this
      ensures M.Burst(State(), sections, left, ok) == M.Resend(old(State()), room, now, repeat, limit)
    {
      sections, left := [], room;
      hide M.Overdue, M.Due, M.Resend, M.Repeated, M.GivenUp;
      while left > SECTION_HEADER + HANDLE_SIZE
        invariant Ahead(M.Resend(old(State()), room, now, repeat, limit), sections, M.Resend(State(), left, now, repeat, limit))
        decreases |M.Overdue(State(), now)|
      {
        M.ResendUnfolds(State(), left, now, repeat, limit);
        var found, h := FindDue(left - SECTION_HEADER - HANDLE_SIZE, now);
        if !found {
          return sections, left, true;
        }
        if moves[h].attempt == limit {
          GiveUp(h);
          return sections, left, false;
        }
        M.OverdueShrinks(State(), now, h, repeat);
        var x := Move(h, moves[h].data);
        Repeat(h, now + repeat);
        sections, left := sections + [x], left - SizeOf(x);
      }
      M.ResendUnfolds(State(), left, now, repeat, limit);
      ok := true;
    }

    /** The two outcomes of the test on the 8-bit attempt counter, which it increments either way. */
    method GiveUp(h: nat)
      requires h in moves
      modifies this
      ensures State() == M.GivenUp(old(State()), h)
    {
      moves := moves[h := moves[h].(attempt := (moves[h].attempt + 1) % 256)];
      alarms := alarms + [BrokenPipe];
    }

    method Repeat(h: nat, time: nat)
      requires h in moves
      modifies this
      ensures State() == M.Repeated(old(State()), h, time)
    {
      moves := moves[h := moves[h].(attempt := (moves[h].attempt + 1) % 256)];
      moves := moves[h := moves[h].(time := time)];
    }

    /** What a whole pass yields, once `done` has been written, is `done` and then what the rest of the pass yields. */
    static ghost predicate Ahead(whole: M.Burst, done: seq<Section>, rest: M.Burst) {
      whole == rest.(sections := done + rest.sections)
    }

    method Cut(room: nat, now: nat, repeat: nat, swarm: nat) returns (sections: seq<Section>, left: nat)
      requires head <= range
      modifies this
      ensures M.Burst(State(), sections, left, true) == M.Cut(old(State()), room, now, repeat, swarm)
    {
      sections, left := [], room;
      hide M.Cut, M.CutOnce, M.CutSection, M.Pull, M.NoEmptyChunk, Concat;
      while queue != [] && |moves| < swarm
        invariant head <= range
        invariant Ahead(M.Cut(old(State()), room, now, repeat, swarm), sections, M.Cut(State(), left, now, repeat, swarm))
        decreases |queue|, if queue == [] then 0 else |queue[0]|
      {
        M.CutUnfolds(State(), left, now, repeat, swarm);
        var limit := range - head;
        if limit == 0 || left <= SECTION_HEADER + HANDLE_SIZE {
          return;
        }
        var x := CutOnce(Min(limit, left - SECTION_HEADER - HANDLE_SIZE), now + repeat);
        sections, left := sections + [x], left - SizeOf(x);
      }
      M.CutUnfolds(State(), left, now, repeat, swarm);
    }

    /** Pull a fragment, write its section and start its flight. */
    method CutOnce(max: nat, time: nat) returns (x: Section)
      requires queue != []
      modifies this
      ensures x == M.CutSection(old(State()), max) && State() == M.CutOnce(old(State()), max, time)
    {
      var handle := head;
      var data := Pull(max);
      x := Move(handle, data);
      moves := Emplace(moves, handle, M.Flight(data, time, 1));
    }

    method EchoEdges(room: nat) returns (sections: seq<Section>, left: nat)
      modifies this
      ensures M.Burst(State(), sections, left, true) == M.EchoEdges(old(State()), room)
    {
      hide M.EchoEdges;
      sections, left := [], room;
      while acks != {} && left >= SECTION_HEADER + VALUE_SIZE
        invariant Ahead(M.EchoEdges(old(State()), room), sections, M.EchoEdges(State(), left))
        decreases |acks|
      {
        M.EchoEdgesUnfolds(State(), left);
        var v := MinOf(acks);
        sections, left := sections + [EdgeEcho(v)], left - SizeOf(EdgeEcho(v));
        acks := acks - {v};
      }
      M.EchoEdgesUnfolds(State(), left);
    }

    method Imbue(room: nat, now: nat, repeat: nat) returns (sections: seq<Section>, left: nat, ok: bool)
      requires Valid()
      modifies this
      ensures Valid() && M.Burst(State(), sections, left, ok) == M.Imbue(old(State()), room, now, repeat, cfg)
    {
      SenderLaws.ImbueSound(State(), room, now, repeat, cfg);
      M.ResendFrame(State(), room, now, repeat, cfg.attempts);
      sections, left, ok := Resend(room, now, repeat, cfg.attempts);
      if !ok {
        return;
      }
      var cuts, echoes;
      cuts, left := Cut(left, now, repeat, cfg.swarm);
      echoes, left := EchoEdges(left);
      sections := sections + cuts + echoes;
    }

    // ---------------------------------------------------------------- append, error, queries

    method Append(buffer: seq<byte>, id: nat)
      requires Valid()
      modifies this
      ensures Valid() && State() == M.Append(old(State()), buffer, id, cfg)
    {
      SenderLaws.AppendSound(State(), buffer, id, cfg);
      var end := tail;
      var now := Add(buffer);
      if now == end {
        posted := posted + [M.WritePost(id, NoBufferSpace, 0)];
        alarms := alarms + [NoBufferSpace];
        return;
      }
      writers := writers + [M.Writer(end, |buffer|, id)];
    }

    method Error(code: Code)
      requires Valid()
      modifies this
      ensures Valid() && State() == M.Error(old(State()), code)
    {
      var cursor := Cursor();
      ghost var first := posted;
      var i := 0;
      while i < |writers|
        invariant 0 <= i <= |writers|
        invariant posted + M.Refunds(writers[i..], cursor, code) == first + M.Refunds(writers, cursor, code)
        invariant State() == old(State()).(posted := posted)
      {
        var w := writers[i];
        var sent := 0;
        if cursor >= w.head + w.size {
          sent := w.size;
        } else if cursor > w.head {
          sent := cursor - w.head;
        }
        assert writers[i..][0] == w && writers[i..][1..] == writers[i + 1..];
        ghost var p := M.WritePost(w.id, code, sent);
        assert posted + ([p] + M.Refunds(writers[i + 1..], cursor, code)) == posted + [p] + M.Refunds(writers[i + 1..], cursor, code);
        posted := posted + [M.WritePost(w.id, code, sent)];
        i := i + 1;
      }
      assert M.Refunds(writers[i..], cursor, code) == [];
      writers := [];
      moves := map[];
      Clear();
    }

    method Deferred() returns (b: bool)
      ensures b == M.Deferred(State())
    {
      b := moves != map[] || acks != {} || (queue != [] && head < range);
    }

    method Writable() returns (n: nat)
      requires Valid()
      ensures n == M.Writable(State(), cfg)
      ensures forall m: nat :: m < n ==> M.Accepts(State(), m, cfg)
      ensures n > 0 ==> tail + n <= range && (M.Accepts(State(), n, cfg) <==> range - head < cfg.sendBuffer)
      ensures n == 0 ==> range <= tail || tail - head >= cfg.sendBuffer
    {
      n := if range > tail then Min(range - tail, cfg.sendBuffer - (tail - head)) else 0;
    }
  }
}
