/** The receiving half of a UDP channel as an object; each method is proved against Receiving. */
module IStreaming {
  import opened Containers
  import opened Protocol
  import M = Receiving

  class IStreamer {
    const cfg: Config
    var head: nat
    var tail: nat
    var data: map<nat, seq<byte>>
    var acks: set<nat>
    var readers: seq<M.Reader>
    var edge: nat
    var edgeTime: Time
    var posted: seq<M.ReadPost>
    var alarms: seq<Code>

    function State(): M.Receiver
      reads this
    {
      M.Receiver(head, tail, data, acks, readers, edge, edgeTime, posted, alarms)
    }

    /** No read holds more bytes than it asked for. */
    ghost predicate Valid()
      reads this
    {
      M.FillsFit(State())
    }

    constructor (cfg: Config)
      ensures Valid() && this.cfg == cfg && State() == M.InitReceiver(cfg)
    {
      this.cfg := cfg;
      head, tail, data, acks, readers := 0, 0, map[], {}, [];
      edge, edgeTime, posted, alarms := cfg.receiveBuffer, At(0), [], [];
    }

    // ---------------------------------------------------------------- streambuf

    method Available() returns (b: bool)
      ensures b == M.Available(State())
    {
      b := data != map[] && MinOf(data.Keys) == head;
    }

    method Pull(max: nat) returns (bytes: seq<byte>)
      requires M.Available(State())
      modifies this
      ensures bytes == M.Pulled(old(State()), max) && State() == M.AfterPull(old(State()), max)
    {
      var top := data[head];
      data := data - {head};
      if |top| <= max {
        head := head + |top|;
        return top;
      }
      head := head + max;
      bytes := top[..max];
      data := Emplace(data, head, top[max..]);
    }

    method Map(handle: nat, fragment: seq<byte>) returns (ok: bool)
      modifies this
      ensures ok == !M.Refuses(old(State()), handle, |fragment|, cfg)
      ensures State() == if ok then M.Place(old(State()), handle, fragment) else old(State())
    {
      // the original subtracts in unsigned 64-bit arithmetic: a negative distance counts as a huge one
      var distance := handle + |fragment| - head;
      if handle >= tail && (distance < 0 || distance > cfg.receiveBuffer) {
        return false;
      }
      if handle >= head {
        if handle !in data {
          data := data[handle := fragment];
          assert handle in data.Keys;
          var last: nat := MaxOf(data.Keys);
          tail := last + |data[last]|;
        }
      }
      return true;
    }

    // ---------------------------------------------------------------- transmit

    /** Move bytes of one entry into the front read. */
    method FillFront()
      requires M.Available(State()) && readers != [] && |readers[0].fill| < readers[0].size && M.FillsFit(State())
      modifies this
      ensures State() == M.FillFront(old(State()))
      ensures M.FillsFit(State()) && readers != [] && |readers| == old(|readers|)
      ensures readers[0].size - |readers[0].fill| < old(readers[0].size - |readers[0].fill|)
              || (readers[0].size - |readers[0].fill| == old(readers[0].size - |readers[0].fill|) && |data| < old(|data|))
    {
      var front := readers[0];
      assert front.size - |front.fill| >= |data[head]| ==> (data - {head}).Keys == data.Keys - {head};
      var bytes := Pull(front.size - |front.fill|);
      readers := readers[0 := front.(fill := front.fill + bytes)];
    }

    method Complete()
      requires readers != []
      modifies this
      ensures State() == M.Complete(old(State())) && |readers| < old(|readers|)
    {
      var front := readers[0];
      if |front.fill| > 0 {
        edge := edge + |front.fill|;
        edgeTime := At(0);
      }
      posted := posted + [M.ReadPost(front.id, Success, front.fill)];
      readers := readers[1..];
    }

    method Transmit()
      requires Valid()
      modifies this
      ensures Valid() && State() == M.Transmit(old(State()))
    {
      hide M.Transmit, M.Available, M.AfterPull, M.Pulled, M.FillFront, M.Complete;
      var more := Available();
      while more
        invariant M.FillsFit(State()) && more == M.Available(State())
        invariant M.Transmit(State()) == M.Transmit(old(State()))
        decreases |readers|, more
      {
        M.TransmitUnfolds(State());
        if readers == [] {
          return;
        }
        ghost var count := |readers|;
        while more && readers[0].size > |readers[0].fill|
          invariant readers != [] && |readers| == count && M.FillsFit(State()) && more == M.Available(State())
          invariant M.FillsFit(M.CompleteIfFull(State()))
          invariant M.Transmit(M.CompleteIfFull(State())) == M.Transmit(old(State()))
          decreases readers[0].size - |readers[0].fill|, |data|
        {
          M.TransmitUnfolds(State());
          FillFront();
          more := Available();
        }
        if readers[0].size == |readers[0].fill| {
          Complete();
        }
        more := Available();
      }
      M.TransmitUnfolds(State());
    }

    // ---------------------------------------------------------------- parse, imbue

    /** Hear a packet; `all` tells that no fragment was refused. */
    method Parse(secs: seq<Section>) returns (all: bool)
      requires Valid()
      modifies this
      ensures Valid() && State() == M.Parse(old(State()), secs, cfg)
      ensures all <==> M.Scan(old(State()), secs, cfg).alarms == old(alarms)
    {
      M.ScanKeepsFit(State(), secs, cfg);
      all := true;
      var i := 0;
      while i < |secs|
        invariant 0 <= i <= |secs|
        invariant all && alarms == old(alarms)
        invariant M.Scan(State(), secs[i..], cfg) == M.Scan(old(State()), secs, cfg)
      {
        assert secs[i..][0] == secs[i] && secs[i..][1..] == secs[i + 1..];
        ghost var was := State();
        match secs[i] {
        case Move(handle, fragment) =>
          var ok := Map(handle, fragment);
          if ok {
            acks := acks + {handle};
          } else {
            alarms := alarms + [NoBufferSpace];
            all := false;
            break;
          }
        case EdgeEcho(value) =>
          if edge == value {
            edgeTime := Never;
          }
        case _ =>
        }
        assert State() == M.Hear(was, secs[i]);
        i := i + 1;
      }
      Transmit();
    }

    method EchoMoves(room: nat) returns (sections: seq<Section>, left: nat)
      modifies this
      ensures readers == old(readers)
      ensures M.Burst(State(), sections, left) == M.EchoMoves(old(State()), room)
    {
      hide M.EchoMoves;
      sections, left := [], room;
      while acks != {} && left >= SECTION_HEADER + VALUE_SIZE
        invariant readers == old(readers)
        invariant Ahead(M.EchoMoves(old(State()), room), sections, M.EchoMoves(State(), left))
        decreases |acks|
      {
        M.EchoMovesUnfolds(State(), left);
        var h := MinOf(acks);
        sections, left := sections + [MoveEcho(h)], left - SizeOf(MoveEcho(h));
        acks := acks - {h};
      }
      M.EchoMovesUnfolds(State(), left);
    }

    method Imbue(room: nat, now: nat, repeat: nat) returns (sections: seq<Section>, left: nat)
      requires Valid()
      modifies this
      ensures Valid() && M.Burst(State(), sections, left) == M.Imbue(old(State()), room, now, repeat)
    {
      sections, left := EchoMoves(room);
      if left >= SECTION_HEADER + VALUE_SIZE {
        if edgeTime.NotAfter(now) {
          var x := Edge(edge);
          sections, left := sections + [x], left - SizeOf(x);
          edgeTime := At(now + repeat);
        }
      }
    }

    static ghost predicate Ahead(whole: M.Burst, done: seq<Section>, rest: M.Burst) {
      whole == rest.(sections := done + rest.sections)
    }

    // ---------------------------------------------------------------- append, error, queries

    method Append(size: nat, id: nat)
      requires Valid()
      modifies this
      ensures Valid() && State() == M.Append(old(State()), size, id)
    {
      readers := readers + [M.Reader(size, [], id)];
      Transmit();
    }

    method Error(code: Code)
      modifies this
      ensures Valid() && State() == M.Error(old(State()), code)
    {
      ghost var first := posted;
      var i := 0;
      while i < |readers|
        invariant 0 <= i <= |readers|
        invariant posted + M.Aborts(readers[i..], code) == first + M.Aborts(readers, code)
        invariant State() == old(State()).(posted := posted)
      {
        var r := readers[i];
        assert readers[i..][0] == r && readers[i..][1..] == readers[i + 1..];
        ghost var p := M.ReadPost(r.id, code, r.fill);
        assert posted + ([p] + M.Aborts(readers[i + 1..], code)) == posted + [p] + M.Aborts(readers[i + 1..], code);
        posted := posted + [M.ReadPost(r.id, code, r.fill)];
        i := i + 1;
      }
      assert M.Aborts(readers[i..], code) == [];
      readers := [];
      acks := {};
      data := map[];
      head := 0;
    }

    method Deferred() returns (b: bool)
      ensures b == M.Deferred(State())
    {
      b := acks != {} || edgeTime != Never;
    }

    method ReadableBytes() returns (n: nat)
      ensures n == M.ReadableBytes(State())
    {
      var cursor: nat := head;
      var rest := data.Keys;
      while rest != {} && MinOf(rest) == cursor
        invariant rest <= data.Keys && head <= cursor
        invariant M.RunEnd(data, rest, cursor) == M.RunEnd(data, data.Keys, head)
        decreases |rest|
      {
        rest := rest - {cursor};
        cursor := cursor + |data[cursor]|;
      }
      n := cursor - head;
    }

    method Readable() returns (bytes: nat)
      requires Valid()
      ensures bytes == M.Readable(State())
    {
      bytes := ReadableBytes();
      ghost var all := bytes;
      var i := 0;
      while bytes > 0 && i < |readers|
        invariant 0 <= i <= |readers|
        invariant M.Unclaimed(bytes, readers[i..]) == M.Unclaimed(all, readers)
      {
        assert readers[i..][0] == readers[i] && readers[i..][1..] == readers[i + 1..];
        bytes := bytes - Min(readers[i].size - |readers[i].fill|, bytes);
        i := i + 1;
      }
    }
  }
}
