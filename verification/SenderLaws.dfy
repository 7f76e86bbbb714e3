/** What every step of the sending half keeps. */
module SenderLaws {
  import opened Containers
  import opened Protocol
  import opened Sending

  // ---------------------------------------------------------------- the ledger of writes

  /** An accepted write as its caller sees it. */
  datatype Claim = Claim(id: nat, size: nat)

  /** The writes reported as fully sent, in posting order. */
  function Settled(posted: seq<WritePost>): seq<Claim> {
    if posted == [] then []
    else
      var rest := Settled(posted[..|posted| - 1]);
      var last := posted[|posted| - 1];
      if last.code == Success then rest + [Claim(last.id, last.count)] else rest
  }

  /** The writes still pending, oldest first. */
  function Pending(ws: seq<Writer>): seq<Claim> {
    if ws == [] then [] else [Claim(ws[0].id, ws[0].size)] + Pending(ws[1..])
  }

  /** Bytes reported so far. */
  function Total(posted: seq<WritePost>): nat {
    if posted == [] then 0 else Total(posted[..|posted| - 1]) + posted[|posted| - 1].count
  }

  /** The pending writes lie end to end from `from` to `to`, none of them empty. */
  predicate Tiles(ws: seq<Writer>, from: nat, to: nat) {
    if ws == [] then from == to
    else ws[0].head == from && ws[0].size > 0 && Tiles(ws[1..], from + ws[0].size, to)
  }

  /** Reported bytes and pending writes tile the stream; successes, then pending, are the accepted writes in order. */
  ghost predicate Ledger(writers: seq<Writer>, posted: seq<WritePost>, tail: nat, accepted: seq<Claim>) {
    && Tiles(writers, Total(posted), tail)
    && Settled(posted) + Pending(writers) == accepted
  }

  // ---------------------------------------------------------------- the flight table

  ghost predicate FlightsOk(moves: map<nat, Flight>, head: nat) {
    && (forall h :: h in moves ==> h + |moves[h].data| <= head && moves[h].attempt < 256)
    && (forall h, k :: h in moves && k in moves && h < k ==> h + |moves[h].data| <= k)
  }

  /** The local invariant of an open sender. */
  ghost predicate SenderInv(s: Sender, accepted: seq<Claim>, cfg: Config) {
    && Sound(s, cfg)
    && |s.moves.Keys| <= cfg.swarm
    && FlightsOk(s.moves, s.head)
    && Ledger(s.writers, s.posted, s.tail, accepted)
    && Total(s.posted) <= Cursor(s)
    && Prompt(s)
  }

  /** No write waits whose bytes have all been acknowledged. */
  predicate Prompt(s: Sender) {
    s.writers == [] || s.writers[0].head + s.writers[0].size > Cursor(s)
  }

  lemma InitHolds(cfg: Config)
    ensures SenderInv(InitSender(), [], cfg)
  {
  }

  lemma CursorBounds(s: Sender)
    requires FlightsOk(s.moves, s.head)
    ensures Cursor(s) <= s.head
  {
  }

  lemma PostedSnoc(posted: seq<WritePost>, p: WritePost)
    ensures Settled(posted + [p]) == if p.code == Success then Settled(posted) + [Claim(p.id, p.count)] else Settled(posted)
    ensures Total(posted + [p]) == Total(posted) + p.count
  {
    assert (posted + [p])[..|posted|] == posted;
  }

  // ---------------------------------------------------------------- parse

  lemma LedgerSettles(writers: seq<Writer>, posted: seq<WritePost>, tail: nat, accepted: seq<Claim>)
    requires Ledger(writers, posted, tail, accepted) && writers != []
    ensures writers[0].head == Total(posted)
    ensures var p := WritePost(writers[0].id, Success, writers[0].size);
            && Ledger(writers[1..], posted + [p], tail, accepted)
            && Total(posted + [p]) == writers[0].head + writers[0].size
  {
    var p := WritePost(writers[0].id, Success, writers[0].size);
    PostedSnoc(posted, p);
    var c := Claim(p.id, p.count);
    assert Pending(writers) == [c] + Pending(writers[1..]);
    assert (Settled(posted) + [c]) + Pending(writers[1..]) == Settled(posted) + ([c] + Pending(writers[1..]));
  }

  lemma {:induction false} SettleKeeps(s: Sender, cursor: nat, accepted: seq<Claim>)
    requires Ledger(s.writers, s.posted, s.tail, accepted) && Total(s.posted) <= cursor
    ensures var t := Settle(s, cursor);
            && Ledger(t.writers, t.posted, t.tail, accepted)
            && Total(s.posted) <= Total(t.posted) <= cursor
            && t.(writers := s.writers, posted := s.posted) == s
            && (t.writers == [] || t.writers[0].head + t.writers[0].size > cursor)
    decreases |s.writers|
  {
    if !(s.writers == [] || s.writers[0].head + s.writers[0].size > cursor) {
      var w := s.writers[0];
      var s1 := s.(writers := s.writers[1..], posted := s.posted + [WritePost(w.id, Success, w.size)]);
      LedgerSettles(s.writers, s.posted, s.tail, accepted);
      SettleKeeps(s1, cursor, accepted);
    }
  }

  lemma EraseKeeps(s: Sender, h: nat)
    requires FlightsOk(s.moves, s.head)
    ensures var t := s.(moves := s.moves - {h});
            FlightsOk(t.moves, t.head) && Cursor(s) <= Cursor(t) && |t.moves.Keys| <= |s.moves.Keys|
  {
    var t := s.(moves := s.moves - {h});
    assert t.moves.Keys == s.moves.Keys - {h};
  }

  lemma MoveEchoKeeps(s: Sender, h: nat, accepted: seq<Claim>, cfg: Config)
    requires SenderInv(s, accepted, cfg)
    ensures var t := OnMoveEcho(s, h);
            && SenderInv(t, accepted, cfg)
            && t.(writers := s.writers, posted := s.posted, moves := s.moves) == s
            && t.moves == s.moves - {h}
            && Cursor(s) <= Cursor(t)
            && Total(s.posted) <= Total(t.posted)
  {
    EraseKeeps(s, h);
    var s1 := s.(moves := s.moves - {h});
    SettleKeeps(s1, Cursor(s1), accepted);
  }

  lemma ParseSectionKeeps(s: Sender, sec: Section, accepted: seq<Claim>, cfg: Config)
    requires SenderInv(s, accepted, cfg)
    ensures SenderInv(ParseSection(s, sec), accepted, cfg)
  {
    if sec.MoveEcho? {
      MoveEchoKeeps(s, sec.cursor, accepted, cfg);
    }
  }

  lemma {:induction false} ParseKeeps(s: Sender, secs: seq<Section>, accepted: seq<Claim>, cfg: Config)
    requires SenderInv(s, accepted, cfg)
    ensures SenderInv(Parse(s, secs), accepted, cfg)
    decreases |secs|
  {
    if secs != [] {
      ParseSectionKeeps(s, secs[0], accepted, cfg);
      ParseKeeps(ParseSection(s, secs[0]), secs[1..], accepted, cfg);
    }
  }

  /**
   * Hearing a packet raises the credit to the greatest edge in it, if that is greater; if there is an edge in it, the
   * credit is due to be echoed, and nothing is echoed that is below the credit of before.
   */
  lemma {:induction false} CreditIsGreatest(s: Sender, secs: seq<Section>)
    ensures var t := Parse(s, secs);
            && s.range <= t.range && (t.range == s.range || Edge(t.range) in secs)
            && (forall v: nat :: Edge(v) in secs ==> v <= t.range && t.range in t.acks)
            && s.acks <= t.acks && (forall a :: a in t.acks ==> a in s.acks || s.range <= a <= t.range)
            && ((forall x :: x in secs ==> !x.Edge?) ==> t.acks == s.acks)
    decreases |secs|
  {
    hide Settle, Cursor;
    if secs != [] {
      var t := ParseSection(s, secs[0]);
      if secs[0].MoveEcho? {
        var s1 := s.(moves := s.moves - {secs[0].cursor});
        SettleFrame(s1, Cursor(s1));
      }
      CreditIsGreatest(t, secs[1..]);
      assert forall x :: x in secs <==> x == secs[0] || x in secs[1..];
    }
  }

  // ---------------------------------------------------------------- imbue

  lemma {:induction false} ResendCounters(s: Sender, room: nat, now: nat, repeat: nat, limit: nat)
    requires forall h :: h in s.moves ==> s.moves[h].attempt < 256
    ensures forall h :: h in Resend(s, room, now, repeat, limit).sender.moves ==>
              Resend(s, room, now, repeat, limit).sender.moves[h].attempt < 256
    decreases |Overdue(s, now)|
  {
    hide Overdue, Due, Eligible;
    var due := Eligible(s, room, now);
    if due != {} {
      var h := MinOf(due);
      if s.moves[h].attempt != limit {
        OverdueShrinks(s, now, h, repeat);
        ResendCounters(Repeated(s, h, now + repeat), room - SizeOf(Move(h, s.moves[h].data)), now, repeat, limit);
      }
    }
  }

  lemma ResendKeeps(s: Sender, room: nat, now: nat, repeat: nat, limit: nat, accepted: seq<Claim>, cfg: Config)
    requires SenderInv(s, accepted, cfg)
    ensures SenderInv(Resend(s, room, now, repeat, limit).sender, accepted, cfg)
    ensures Cursor(Resend(s, room, now, repeat, limit).sender) == Cursor(s)
  {
    hide Resend, Ledger, SizeOfAll;
    ResendFrame(s, room, now, repeat, limit);
    ResendCounters(s, room, now, repeat, limit);
    var t := Resend(s, room, now, repeat, limit).sender;
    assert t.moves == map[] <==> t.moves.Keys == {};
    assert s.moves == map[] <==> s.moves.Keys == {};
  }

  lemma CutOnceFlights(s: Sender, d: seq<byte>, time: nat)
    requires FlightsOk(s.moves, s.head)
    ensures var t := s.(head := s.head + |d|, moves := Emplace(s.moves, s.head, Flight(d, time, 1)));
            FlightsOk(t.moves, t.head) && Cursor(t) == Cursor(s) && |t.moves.Keys| <= |s.moves.Keys| + 1
  {
    var t := s.(head := s.head + |d|, moves := Emplace(s.moves, s.head, Flight(d, time, 1)));
    assert t.moves.Keys == s.moves.Keys + {s.head};
  }

  lemma CutOnceKeeps(s: Sender, max: nat, time: nat, accepted: seq<Claim>, cfg: Config)
    requires SenderInv(s, accepted, cfg)
    requires s.queue != [] && max <= s.range - s.head && |s.moves.Keys| < cfg.swarm
    ensures SenderInv(CutOnce(s, max, time), accepted, cfg)
    ensures Cursor(CutOnce(s, max, time)) == Cursor(s)
  {
    var t := CutOnce(s, max, time);
    var d := Pull(s.queue, max).0;
    CutOnceFlights(s, d, time);
    var u := s.(head := s.head + |d|, moves := Emplace(s.moves, s.head, Flight(d, time, 1)));
    assert t == u.(queue := t.queue);
    assert Cursor(t) == Cursor(u);
  }

  lemma CreditCovers(s: Sender, accepted: seq<Claim>, cfg: Config)
    requires SenderInv(s, accepted, cfg)
    ensures s.head <= s.range && s.head <= s.tail
  {
  }

  lemma {:induction false} CutKeeps(s: Sender, room: nat, now: nat, repeat: nat, accepted: seq<Claim>, cfg: Config)
    requires SenderInv(s, accepted, cfg)
    ensures SenderInv(Cut(s, room, now, repeat, cfg.swarm).sender, accepted, cfg)
    ensures Cursor(Cut(s, room, now, repeat, cfg.swarm).sender) == Cursor(s)
    decreases |s.queue|, if s.queue == [] then 0 else |s.queue[0]|
  {
    hide SenderInv, CutOnce, Pull, NoEmptyChunk, Concat;
    CreditCovers(s, accepted, cfg);
    var max := CutLimit(s, room, cfg.swarm);
    if max > 0 {
      CutOnceKeeps(s, max, now + repeat, accepted, cfg);
      CutKeeps(CutOnce(s, max, now + repeat), room - SizeOf(CutSection(s, max)), now, repeat, accepted, cfg);
    }
  }

  lemma {:induction false} EchoEdgesFrame(s: Sender, room: nat)
    ensures var b := EchoEdges(s, room);
            && b.sender.(acks := s.acks) == s
            && b.sender.acks <= s.acks
            && b.ok
            && b.room + SizeOfAll(b.sections) == room
            && (forall x :: x in b.sections ==> x.EdgeEcho? && x.range in s.acks)
    decreases |s.acks|
  {
    if !(s.acks == {} || room < SECTION_HEADER + VALUE_SIZE) {
      var v := MinOf(s.acks);
      EchoEdgesFrame(s.(acks := s.acks - {v}), room - SizeOf(EdgeEcho(v)));
      var b := EchoEdges(s, room);
      assert b.sections[1..] == EchoEdges(s.(acks := s.acks - {v}), room - SizeOf(EdgeEcho(v))).sections;
    }
  }

  lemma ImbueKeeps(s: Sender, room: nat, now: nat, repeat: nat, accepted: seq<Claim>, cfg: Config)
    requires SenderInv(s, accepted, cfg)
    ensures SenderInv(Imbue(s, room, now, repeat, cfg).sender, accepted, cfg)
    ensures Cursor(Imbue(s, room, now, repeat, cfg).sender) == Cursor(s)
  {
    hide Resend, Cut, EchoEdges, Ledger, FlightsOk;
    ResendKeeps(s, room, now, repeat, cfg.attempts, accepted, cfg);
    var first := Resend(s, room, now, repeat, cfg.attempts);
    if first.ok {
      CutKeeps(first.sender, first.room, now, repeat, accepted, cfg);
      var second := Cut(first.sender, first.room, now, repeat, cfg.swarm);
      EchoEdgesFrame(second.sender, second.room);
    }
  }

  // ---------------------------------------------------------------- append and error

  /** The writes accepted once `Append` has run. */
  ghost function AcceptedAfter(s: Sender, buffer: seq<byte>, id: nat, cfg: Config, accepted: seq<Claim>): seq<Claim>
    requires s.head <= s.tail
  {
    if Accepts(s, |buffer|, cfg) && |buffer| > 0 then accepted + [Claim(id, |buffer|)] else accepted
  }

  lemma {:induction false} TilesSnoc(ws: seq<Writer>, from: nat, w: Writer)
    requires Tiles(ws, from, w.head) && w.size > 0
    ensures Tiles(ws + [w], from, w.head + w.size)
    ensures Pending(ws + [w]) == Pending(ws) + [Claim(w.id, w.size)]
    decreases |ws|
  {
    if ws != [] {
      TilesSnoc(ws[1..], from + ws[0].size, w);
      assert (ws + [w])[1..] == ws[1..] + [w];
    }
  }

  lemma LedgerRefuses(writers: seq<Writer>, posted: seq<WritePost>, tail: nat, accepted: seq<Claim>, p: WritePost)
    requires Ledger(writers, posted, tail, accepted) && p.code != Success && p.count == 0
    ensures Ledger(writers, posted + [p], tail, accepted)
    ensures Total(posted + [p]) == Total(posted)
  {
    PostedSnoc(posted, p);
  }

  lemma LedgerAccepts(writers: seq<Writer>, posted: seq<WritePost>, tail: nat, accepted: seq<Claim>, w: Writer)
    requires Ledger(writers, posted, tail, accepted) && w.head == tail && w.size > 0
    ensures Ledger(writers + [w], posted, tail + w.size, accepted + [Claim(w.id, w.size)])
  {
    TilesSnoc(writers, Total(posted), w);
  }

  lemma AppendSound(s: Sender, buffer: seq<byte>, id: nat, cfg: Config)
    requires Sound(s, cfg)
    ensures Sound(Append(s, buffer, id, cfg), cfg)
  {
    ConcatSnoc(s.queue, buffer);
  }

  lemma AppendKeeps(s: Sender, buffer: seq<byte>, id: nat, accepted: seq<Claim>, cfg: Config)
    requires SenderInv(s, accepted, cfg)
    ensures SenderInv(Append(s, buffer, id, cfg), AcceptedAfter(s, buffer, id, cfg, accepted), cfg)
  {
    AppendSound(s, buffer, id, cfg);
    hide Ledger, FlightsOk, Concat, Total;
    if Accepts(s, |buffer|, cfg) && |buffer| > 0 {
      LedgerAccepts(s.writers, s.posted, s.tail, accepted, Writer(s.tail, |buffer|, id));
    } else {
      LedgerRefuses(s.writers, s.posted, s.tail, accepted, WritePost(id, NoBufferSpace, 0));
    }
  }

  lemma {:induction false} TotalAppend(a: seq<WritePost>, b: seq<WritePost>)
    ensures Total(a + b) == Total(a) + Total(b)
    decreases |b|
  {
    if b == [] {
      assert a + b == a;
    } else {
      assert (a + b)[..|a + b| - 1] == a + b[..|b| - 1];
      TotalAppend(a, b[..|b| - 1]);
    }
  }

  /** What `Refunds` reports for writes laid end to end from `from`. */
  lemma {:induction false} RefundsTotal(ws: seq<Writer>, from: nat, to: nat, cursor: nat, code: Code)
    requires Tiles(ws, from, to) && cursor <= to
    ensures Total(Refunds(ws, cursor, code)) == if from <= cursor then cursor - from else 0
    decreases |ws|
  {
    if ws != [] {
      var p := WritePost(ws[0].id, code, Share(ws[0], cursor));
      RefundsTotal(ws[1..], from + ws[0].size, to, cursor, code);
      TotalAppend([p], Refunds(ws[1..], cursor, code));
      assert Total([p]) == p.count;
    }
  }

  /** On `error`, the reported counts of all writes add up to exactly the acknowledged cursor. */
  lemma ErrorAccounts(s: Sender, accepted: seq<Claim>, cfg: Config, code: Code)
    requires SenderInv(s, accepted, cfg)
    ensures Total(Error(s, code).posted) == Cursor(s)
  {
    CursorBounds(s);
    RefundsTotal(s.writers, Total(s.posted), s.tail, Cursor(s), code);
    TotalAppend(s.posted, Refunds(s.writers, Cursor(s), code));
  }

  /** The number of offsets from `from` on, `size` in all, that lie below the cursor, counted one by one. */
  function Below(from: nat, size: nat, cursor: nat): nat
    decreases size
  {
    if size == 0 then 0
    else (if from < cursor then 1 else 0) + Below(from + 1, size - 1, cursor)
  }

  lemma {:induction false} ShareCounts(w: Writer, cursor: nat)
    ensures Share(w, cursor) == Below(w.head, w.size, cursor)
    decreases w.size
  {
    if w.size > 0 {
      ShareCounts(w.(head := w.head + 1, size := w.size - 1), cursor);
    }
  }

  lemma {:induction false} RefundsLength(ws: seq<Writer>, cursor: nat, code: Code)
    ensures |Refunds(ws, cursor, code)| == |ws|
    decreases |ws|
  {
    if ws != [] {
      RefundsLength(ws[1..], cursor, code);
    }
  }

  lemma {:induction false} RefundsAt(ws: seq<Writer>, cursor: nat, code: Code, i: nat)
    requires i < |ws|
    ensures |Refunds(ws, cursor, code)| == |ws|
    ensures Refunds(ws, cursor, code)[i] == WritePost(ws[i].id, code, Share(ws[i], cursor))
    decreases |ws|
  {
    hide Share;
    if |ws| > 1 {
      RefundsAt(ws[1..], cursor, code, if i == 0 then 0 else i - 1);
    }
  }

  /** On `error`, every pending write is reported in its turn, with the code given and the number of its bytes below the cursor. */
  lemma RefundAt(s: Sender, code: Code, i: nat)
    requires i < |s.writers|
    ensures var t := Error(s, code);
            && |t.posted| == |s.posted| + |s.writers|
            && t.posted[..|s.posted|] == s.posted
            && t.posted[|s.posted| + i] == WritePost(s.writers[i].id, code, Below(s.writers[i].head, s.writers[i].size, Cursor(s)))
            && t.writers == []
  {
    hide Refunds, Share, Below, Cursor;
    RefundsAt(s.writers, Cursor(s), code, i);
    ShareCounts(s.writers[i], Cursor(s));
  }

  /** Posts that are no successes settle nothing. */
  lemma {:induction false} FailuresSettleNothing(posted: seq<WritePost>, more: seq<WritePost>)
    requires forall i :: 0 <= i < |more| ==> more[i].code != Success
    ensures Settled(posted + more) == Settled(posted)
    decreases |more|
  {
    hide Settled;
    if more == [] {
      assert posted + more == posted;
    } else {
      var last := more[|more| - 1];
      PostedSnoc(posted + more[..|more| - 1], last);
      FailuresSettleNothing(posted, more[..|more| - 1]);
      assert posted + more == (posted + more[..|more| - 1]) + [last];
    }
  }

  /** With a code that is not success, `error` reports no write as fully sent. */
  lemma RefundsSettleNothing(posted: seq<WritePost>, ws: seq<Writer>, cursor: nat, code: Code)
    requires code != Success
    ensures Settled(posted + Refunds(ws, cursor, code)) == Settled(posted)
  {
    hide Settled, Refunds;
    var more := Refunds(ws, cursor, code);
    RefundsLength(ws, cursor, code);
    forall i | 0 <= i < |more| ensures more[i].code != Success {
      RefundsAt(ws, cursor, code, i);
    }
    FailuresSettleNothing(posted, more);
  }

  // ---------------------------------------------------------------- soundness alone

  lemma {:induction false} SettleFrame(s: Sender, cursor: nat)
    ensures Settle(s, cursor).(writers := s.writers, posted := s.posted) == s
    decreases |s.writers|
  {
    if !(s.writers == [] || s.writers[0].head + s.writers[0].size > cursor) {
      var w := s.writers[0];
      SettleFrame(s.(writers := s.writers[1..], posted := s.posted + [WritePost(w.id, Success, w.size)]), cursor);
    }
  }

  /** Hearing a packet takes exactly the echoed flights off the table. */
  lemma {:induction false} ParseMoves(s: Sender, secs: seq<Section>)
    ensures var t := Parse(s, secs);
            && t.queue == s.queue && t.head == s.head && t.tail == s.tail
            && (forall h :: h in t.moves <==> h in s.moves && MoveEcho(h) !in secs)
            && (forall h :: h in t.moves ==> t.moves[h] == s.moves[h])
    decreases |secs|
  {
    if secs != [] {
      if secs[0].MoveEcho? {
        var s1 := s.(moves := s.moves - {secs[0].cursor});
        SettleFrame(s1, Cursor(s1));
      }
      ParseMoves(ParseSection(s, secs[0]), secs[1..]);
      assert forall x :: x in secs <==> x == secs[0] || x in secs[1..];
    }
  }

  lemma {:induction false} ParseSound(s: Sender, secs: seq<Section>, cfg: Config)
    requires Sound(s, cfg)
    ensures Sound(Parse(s, secs), cfg)
    decreases |secs|
  {
    if secs != [] {
      if secs[0].MoveEcho? {
        var s1 := s.(moves := s.moves - {secs[0].cursor});
        SettleFrame(s1, Cursor(s1));
      }
      ParseSound(ParseSection(s, secs[0]), secs[1..], cfg);
    }
  }

  lemma {:induction false} CutSound(s: Sender, room: nat, now: nat, repeat: nat, cfg: Config)
    requires Sound(s, cfg)
    ensures Sound(Cut(s, room, now, repeat, cfg.swarm).sender, cfg)
    decreases |s.queue|, if s.queue == [] then 0 else |s.queue[0]|
  {
    hide Cut;
    var max := CutLimit(s, room, cfg.swarm);
    CutUnfolds(s, room, now, repeat, cfg.swarm);
    if max > 0 {
      CutSound(CutOnce(s, max, now + repeat), room - SizeOf(CutSection(s, max)), now, repeat, cfg);
    }
  }

  lemma ImbueSound(s: Sender, room: nat, now: nat, repeat: nat, cfg: Config)
    requires Sound(s, cfg)
    ensures Sound(Imbue(s, room, now, repeat, cfg).sender, cfg)
  {
    ResendFrame(s, room, now, repeat, cfg.attempts);
    var first := Resend(s, room, now, repeat, cfg.attempts);
    if first.ok {
      CutSound(first.sender, first.room, now, repeat, cfg);
      var second := Cut(first.sender, first.room, now, repeat, cfg.swarm);
      EchoEdgesFrame(second.sender, second.room);
    }
  }

  // ---------------------------------------------------------------- what a packet of the sender holds

  lemma {:induction false} CutSections(s: Sender, room: nat, now: nat, repeat: nat, swarm: nat)
    requires s.head <= s.range
    ensures var b := Cut(s, room, now, repeat, swarm);
            && b.room + SizeOfAll(b.sections) == room
            && (forall x :: x in b.sections ==> x.Move? && s.head <= x.handle)
            && s.head <= b.sender.head <= b.sender.range
    decreases |s.queue|, if s.queue == [] then 0 else |s.queue[0]|
  {
    hide Concat, NoEmptyChunk, CutOnce, CutSection, Pull;
    var max := CutLimit(s, room, swarm);
    if max > 0 {
      var x := CutSection(s, max);
      CutSections(CutOnce(s, max, now + repeat), room - SizeOf(x), now, repeat, swarm);
      var b := Cut(CutOnce(s, max, now + repeat), room - SizeOf(x), now, repeat, swarm);
      assert ([x] + b.sections)[1..] == b.sections;
    }
  }

  /** The packet is filled without overrun, with fragments and edge echoes only. */
  lemma ImbueSections(s: Sender, room: nat, now: nat, repeat: nat, cfg: Config)
    requires s.head <= s.range
    ensures var b := Imbue(s, room, now, repeat, cfg);
            && b.room + SizeOfAll(b.sections) == room
            && (forall x :: x in b.sections ==> x.Move? || x.EdgeEcho?)
  {
    ResendFrame(s, room, now, repeat, cfg.attempts);
    var first := Resend(s, room, now, repeat, cfg.attempts);
    if first.ok {
      CutSections(first.sender, first.room, now, repeat, cfg.swarm);
      var second := Cut(first.sender, first.room, now, repeat, cfg.swarm);
      EchoEdgesFrame(second.sender, second.room);
      var third := EchoEdges(second.sender, second.room);
      SizeOfAllAppend(first.sections, second.sections);
      SizeOfAllAppend(first.sections + second.sections, third.sections);
    }
  }

  /** The bytes of the next fragment: the first chunk, as far as the credit and the room of the packet go. */
  function NextCut(s: Sender, room: nat): nat
    requires s.queue != [] && s.head <= s.range && room >= 12
  {
    Min(|s.queue[0]|, Min(s.range - s.head, room - 12))
  }

  /**
   * The first fragment cut is as long as the first chunk, the credit and the room allow; none is cut exactly if there is
   * nothing queued, no credit, no room for a byte, or no place in the swarm.
   */
  lemma CutsAsMuchAsFits(s: Sender, room: nat, now: nat, repeat: nat, swarm: nat)
    requires s.head <= s.range
    ensures var b := Cut(s, room, now, repeat, swarm);
            if s.queue == [] || s.head == s.range || room <= 12 || |s.moves| >= swarm then b == Burst(s, [], room, true)
            else b.sections != [] && b.sections[0] == Move(s.head, s.queue[0][..NextCut(s, room)])
  {
    hide Cut, CutOnce, Concat, NoEmptyChunk;
    CutUnfolds(s, room, now, repeat, swarm);
  }

  lemma CutOnceFits(s: Sender, max: nat, time: nat)
    requires s.queue != []
    ensures var t := CutOnce(s, max, time);
            && s.moves.Keys <= t.moves.Keys
            && (forall h :: h in t.moves ==>
                  (h in s.moves && t.moves[h] == s.moves[h])
                  || (s.head == h && SizeOf(Move(h, t.moves[h].data)) <= SECTION_HEADER + HANDLE_SIZE + max && t.moves[h].time == time))
  {
    hide Concat, NoEmptyChunk;
  }

  /** Every flight after a pass is one from before, or was cut into the room of this packet. */
  lemma {:induction false} CutFits(s: Sender, room: nat, now: nat, repeat: nat, swarm: nat)
    requires s.head <= s.range
    ensures var t := Cut(s, room, now, repeat, swarm).sender;
            && s.moves.Keys <= t.moves.Keys
            && (forall h :: h in t.moves ==>
                  (h in s.moves && t.moves[h] == s.moves[h])
                  || (s.head <= h && SizeOf(Move(h, t.moves[h].data)) <= room && t.moves[h].time == now + repeat))
    decreases |s.queue|, if s.queue == [] then 0 else |s.queue[0]|
  {
    hide Concat, NoEmptyChunk, Pull, CutOnce, CutSection;
    var max := CutLimit(s, room, swarm);
    if max > 0 {
      CutOnceFits(s, max, now + repeat);
      CutFits(CutOnce(s, max, now + repeat), room - SizeOf(CutSection(s, max)), now, repeat, swarm);
    }
  }

  lemma ImbueFits(s: Sender, room: nat, now: nat, repeat: nat, cfg: Config)
    requires s.head <= s.range
    ensures var t := Imbue(s, room, now, repeat, cfg).sender;
            && s.moves.Keys <= t.moves.Keys
            && (forall h :: h in t.moves ==>
                  (h in s.moves && t.moves[h].data == s.moves[h].data)
                  || (s.head <= h && SizeOf(Move(h, t.moves[h].data)) <= room))
  {
    hide Resend, Cut, EchoEdges;
    ResendFrame(s, room, now, repeat, cfg.attempts);
    var first := Resend(s, room, now, repeat, cfg.attempts);
    if first.ok {
      CutFits(first.sender, first.room, now, repeat, cfg.swarm);
      var second := Cut(first.sender, first.room, now, repeat, cfg.swarm);
      EchoEdgesFrame(second.sender, second.room);
    }
  }
}
