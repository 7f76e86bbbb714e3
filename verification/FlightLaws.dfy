/** How often a fragment is sent: at most once per packet, and at most as often as `move_attempts` allows. */
module FlightLaws {
  import opened Containers
  import opened Protocol
  import opened Sending
  import opened SenderLaws

  // ---------------------------------------------------------------- once per packet

  /** No two fragments of the list have the same handle. */
  ghost predicate HandlesDiffer(secs: seq<Section>) {
    forall i, j :: 0 <= i < j < |secs| && secs[i].Move? && secs[j].Move? ==> secs[i].handle != secs[j].handle
  }

  /** Flights carry bytes and lie behind the head, and no queued chunk is empty. */
  ghost predicate Loaded(s: Sender) {
    && NoEmptyChunk(s.queue)
    && (forall h :: h in s.moves ==> s.moves[h].data != [] && h + |s.moves[h].data| <= s.head)
  }

  lemma DifferCons(x: Section, secs: seq<Section>)
    requires HandlesDiffer(secs) && x.Move?
    requires forall y :: y in secs && y.Move? ==> y.handle != x.handle
    ensures HandlesDiffer([x] + secs)
  {
  }

  lemma DifferAppend(a: seq<Section>, b: seq<Section>)
    requires HandlesDiffer(a) && HandlesDiffer(b)
    requires forall x, y :: x in a && y in b && x.Move? && y.Move? ==> x.handle != y.handle
    ensures HandlesDiffer(a + b)
  {
  }

  lemma {:induction false} ResendOnce(s: Sender, room: nat, now: nat, repeat: nat, limit: nat)
    ensures var b := Resend(s, room, now, repeat, limit);
            && HandlesDiffer(b.sections)
            && (forall x :: x in b.sections ==> x.Move? && x.handle in Overdue(s, now))
    decreases |Overdue(s, now)|
  {
    DifferEmpty();
    hide HandlesDiffer, Repeated, GivenUp, Overdue, Due, Eligible;
    var due := Eligible(s, room, now);
    if due != {} {
      var h := MinOf(due);
      if s.moves[h].attempt != limit {
        var x := Move(h, s.moves[h].data);
        OverdueShrinks(s, now, h, repeat);
        var t := Repeated(s, h, now + repeat);
        ResendOnce(t, room - SizeOf(x), now, repeat, limit);
        DifferCons(x, Resend(t, room - SizeOf(x), now, repeat, limit).sections);
      }
    }
  }

  lemma DifferEmpty()
    ensures HandlesDiffer([])
  {
  }

  lemma CutOnceLoaded(s: Sender, max: nat, time: nat)
    requires Loaded(s) && s.queue != [] && max > 0
    ensures Loaded(CutOnce(s, max, time)) && s.head < CutOnce(s, max, time).head
    ensures CutSection(s, max).fragment != []
    ensures s.head !in s.moves
  {
  }

  lemma {:induction false} CutDiffers(s: Sender, room: nat, now: nat, repeat: nat, swarm: nat)
    requires s.head <= s.range && Loaded(s)
    ensures HandlesDiffer(Cut(s, room, now, repeat, swarm).sections)
    decreases |s.queue|, if s.queue == [] then 0 else |s.queue[0]|
  {
    DifferEmpty();
    hide HandlesDiffer, Loaded, CutOnce, CutSection, Pull, Concat, NoEmptyChunk, SizeOfAll, SizeOf;
    var max := CutLimit(s, room, swarm);
    if max > 0 {
      CutOnceLoaded(s, max, now + repeat);
      var x := CutSection(s, max);
      var t := CutOnce(s, max, now + repeat);
      var b := Cut(t, room - SizeOf(x), now, repeat, swarm);
      CutDiffers(t, room - SizeOf(x), now, repeat, swarm);
      CutSections(t, room - SizeOf(x), now, repeat, swarm);
      DifferCons(x, b.sections);
      assert Cut(s, room, now, repeat, swarm).sections == [x] + b.sections;
    }
  }

  lemma NoMoves(secs: seq<Section>)
    requires forall x :: x in secs ==> !x.Move?
    ensures HandlesDiffer(secs)
  {
  }

  /** One packet repeats or introduces any fragment at most once. */
  lemma SendsOncePerPacket(s: Sender, room: nat, now: nat, repeat: nat, cfg: Config)
    requires s.head <= s.range && Loaded(s)
    ensures HandlesDiffer(Imbue(s, room, now, repeat, cfg).sections)
  {
    hide HandlesDiffer, Resend, Cut, EchoEdges;
    ResendOnce(s, room, now, repeat, cfg.attempts);
    ResendFrame(s, room, now, repeat, cfg.attempts);
    var first := Resend(s, room, now, repeat, cfg.attempts);
    if first.ok {
      CutDiffers(first.sender, first.room, now, repeat, cfg.swarm);
      CutSections(first.sender, first.room, now, repeat, cfg.swarm);
      var second := Cut(first.sender, first.room, now, repeat, cfg.swarm);
      var third := EchoEdges(second.sender, second.room);
      EchoEdgesFrame(second.sender, second.room);
      DifferAppend(first.sections, second.sections);
      NoMoves(third.sections);
      DifferAppend(first.sections + second.sections, third.sections);
    }
  }

  // ---------------------------------------------------------------- at most as often as allowed

  /** How often each handle occurs among the fragments of the list. */
  function Sends(secs: seq<Section>): multiset<nat>
    decreases |secs|
  {
    if secs == [] then multiset{}
    else (if secs[0].Move? then multiset{secs[0].handle} else multiset{}) + Sends(secs[1..])
  }

  /** How often a fragment may be sent before the pipe counts as broken; the 8-bit counter makes 0 mean 256. */
  function Bound(limit: nat): nat {
    if limit == 0 then 256 else limit
  }

  /** `sends` counts every transmission of every fragment; counters agree with it modulo 256. */
  ghost predicate Counted(s: Sender, sends: multiset<nat>, limit: nat) {
    && Loaded(s)
    && (forall h :: h in s.moves ==> 1 <= sends[h] && s.moves[h].attempt == sends[h] % 256)
    && (forall h: nat :: sends[h] <= Bound(limit))
    && (forall h: nat :: s.head <= h ==> sends[h] == 0)
  }

  /** A counter that is not at the limit leaves room for one more transmission. */
  lemma CounterRoom(n: nat, limit: nat)
    requires 1 <= n <= Bound(limit) && limit <= 255
    ensures n % 256 == limit <==> n == Bound(limit)
    ensures (n % 256 + 1) % 256 == (n + 1) % 256
  {
  }

  lemma RepeatedCounted(s: Sender, sends: multiset<nat>, h: nat, time: nat, limit: nat)
    requires Counted(s, sends, limit) && limit <= 255 && h in s.moves && s.moves[h].attempt != limit
    ensures Counted(Repeated(s, h, time), sends + multiset{h}, limit)
  {
    CounterRoom(sends[h], limit);
  }

  ghost predicate WithinBound(sends: multiset<nat>, limit: nat) {
    forall h: nat :: sends[h] <= Bound(limit)
  }

  lemma CountedFacts(s: Sender, sends: multiset<nat>, h: nat, limit: nat)
    requires Counted(s, sends, limit) && limit <= 255
    ensures WithinBound(sends, limit)
    ensures h in s.moves && s.moves[h].attempt == limit ==> sends[h] == Bound(limit)
  {
    if h in s.moves {
      CounterRoom(sends[h], limit);
    }
  }

  lemma SendsCons(sends: multiset<nat>, x: Section, secs: seq<Section>)
    requires x.Move?
    ensures sends + Sends([x] + secs) == (sends + multiset{x.handle}) + Sends(secs)
    ensures sends + Sends([]) == sends
  {
    assert ([x] + secs)[1..] == secs;
  }

  /** Repeating flights never exceeds the bound, and the pipe breaks only at a fragment that has reached it. */
  lemma {:induction false} ResendCounted(s: Sender, sends: multiset<nat>, room: nat, now: nat, repeat: nat, limit: nat)
    requires Counted(s, sends, limit) && limit <= 255
    ensures var b := Resend(s, room, now, repeat, limit);
            && (b.ok ==> Counted(b.sender, sends + Sends(b.sections), limit) && b.sender.alarms == s.alarms)
            && WithinBound(sends + Sends(b.sections), limit)
            && (!b.ok ==> exists h: nat :: (sends + Sends(b.sections))[h] == Bound(limit))
    decreases |Overdue(s, now)|
  {
    hide Counted, Sends, WithinBound, Overdue, Due, Eligible;
    var due := Eligible(s, room, now);
    SendsCons(sends, Move(0, []), []);
    CountedFacts(s, sends, 0, limit);
    if due != {} {
      var h := MinOf(due);
      CountedFacts(s, sends, h, limit);
      if s.moves[h].attempt != limit {
        var x := Move(h, s.moves[h].data);
        var t := Repeated(s, h, now + repeat);
        OverdueShrinks(s, now, h, repeat);
        RepeatedCounted(s, sends, h, now + repeat, limit);
        ResendCounted(t, sends + multiset{h}, room - SizeOf(x), now, repeat, limit);
        SendsCons(sends, x, Resend(t, room - SizeOf(x), now, repeat, limit).sections);
      }
    }
  }

  lemma CutOnceCounted(s: Sender, sends: multiset<nat>, max: nat, time: nat, limit: nat)
    requires Counted(s, sends, limit) && s.queue != [] && max > 0
    ensures Counted(CutOnce(s, max, time), sends + multiset{s.head}, limit)
  {
    CutOnceLoaded(s, max, time);
    var t := CutOnce(s, max, time);
    assert forall h :: h in t.moves ==> h == s.head || (h in s.moves && t.moves[h] == s.moves[h]);
  }

  lemma {:induction false} CutCounted(s: Sender, sends: multiset<nat>, room: nat, now: nat, repeat: nat, swarm: nat, limit: nat)
    requires s.head <= s.range && Counted(s, sends, limit)
    ensures var b := Cut(s, room, now, repeat, swarm);
            Counted(b.sender, sends + Sends(b.sections), limit) && b.sender.alarms == s.alarms
    decreases |s.queue|, if s.queue == [] then 0 else |s.queue[0]|
  {
    hide Counted, Sends, CutOnce, CutSection, Pull, Concat, NoEmptyChunk, CutLimit;
    SendsCons(sends, Move(0, []), []);
    var max := CutLimit(s, room, swarm);
    if max > 0 {
      var x := CutSection(s, max);
      var t := CutOnce(s, max, now + repeat);
      CutOnceCounted(s, sends, max, now + repeat, limit);
      CutCounted(t, sends + multiset{s.head}, room - SizeOf(x), now, repeat, swarm, limit);
      SendsCons(sends, x, Cut(t, room - SizeOf(x), now, repeat, swarm).sections);
    }
  }

  lemma {:induction false} SendsAppend(a: seq<Section>, b: seq<Section>)
    ensures Sends(a + b) == Sends(a) + Sends(b)
    decreases |a|
  {
    if a == [] {
      assert a + b == b;
    } else {
      assert (a + b)[1..] == a[1..] + b;
      SendsAppend(a[1..], b);
    }
  }

  lemma {:induction false} NoSends(secs: seq<Section>)
    requires forall x :: x in secs ==> !x.Move?
    ensures Sends(secs) == multiset{}
    decreases |secs|
  {
    if secs != [] {
      NoSends(secs[1..]);
    }
  }

  lemma ImbueCounted(s: Sender, sends: multiset<nat>, room: nat, now: nat, repeat: nat, cfg: Config)
    requires Sound(s, cfg) && Counted(s, sends, cfg.attempts) && cfg.attempts <= 255
    ensures var b := Imbue(s, room, now, repeat, cfg);
            && (b.ok ==> Counted(b.sender, sends + Sends(b.sections), cfg.attempts) && b.sender.alarms == s.alarms)
            && WithinBound(sends + Sends(b.sections), cfg.attempts)
            && (!b.ok ==> exists h: nat :: (sends + Sends(b.sections))[h] == Bound(cfg.attempts))
  {
    ResendFrame(s, room, now, repeat, cfg.attempts);
    ResendCounted(s, sends, room, now, repeat, cfg.attempts);
    hide Counted, Sends, WithinBound, Resend, Cut, EchoEdges, Concat;
    var first := Resend(s, room, now, repeat, cfg.attempts);
    if first.ok {
      var second := Cut(first.sender, first.room, now, repeat, cfg.swarm);
      CutCounted(first.sender, sends + Sends(first.sections), first.room, now, repeat, cfg.swarm, cfg.attempts);
      var third := EchoEdges(second.sender, second.room);
      EchoEdgesFrame(second.sender, second.room);
      NoSends(third.sections);
      SendsAppend(first.sections, second.sections);
      SendsAppend(first.sections + second.sections, third.sections);
      var all := first.sections + second.sections + third.sections;
      assert sends + Sends(all) == sends + Sends(first.sections) + Sends(second.sections);
      EchoesCounted(second.sender, third.sender, sends + Sends(all), cfg.attempts);
      CountedFacts(third.sender, sends + Sends(all), 0, cfg.attempts);
    }
  }

  lemma EchoesCounted(s: Sender, t: Sender, sends: multiset<nat>, limit: nat)
    requires Counted(s, sends, limit) && t.(acks := s.acks) == s
    ensures Counted(t, sends, limit)
  {
  }

  // ---------------------------------------------------------------- every run of a sender

  /** What may happen to a sender. */
  datatype Happening =
    | Enqueue(buffer: seq<byte>, id: nat)
    | Hear(sections: seq<Section>)
    | Fill(room: nat, now: nat, repeat: nat)

  /** A sender, every transmission so far, and whether the pipe has broken; a broken run goes no further. */
  datatype Track = Track(sender: Sender, sends: multiset<nat>, broken: bool)

  ghost const UNTOUCHED: Track := Track(InitSender(), multiset{}, false)

  ghost function Happens(t: Track, e: Happening, cfg: Config): Track
    requires Sound(t.sender, cfg)
  {
    match e
    case Enqueue(buffer, id) => t.(sender := Append(t.sender, buffer, id, cfg))
    case Hear(secs) => t.(sender := Parse(t.sender, secs))
    case Fill(room, now, repeat) =>
      var b := Imbue(t.sender, room, now, repeat, cfg);
      Track(b.sender, t.sends + Sends(b.sections), !b.ok)
  }

  ghost function Play(t: Track, es: seq<Happening>, cfg: Config): Track
    decreases |es|
  {
    if es == [] || t.broken || !Sound(t.sender, cfg) then t else Play(Happens(t, es[0], cfg), es[1..], cfg)
  }

  ghost predicate NoEmptyWrite(es: seq<Happening>) {
    forall i :: 0 <= i < |es| && es[i].Enqueue? ==> es[i].buffer != []
  }

  ghost predicate TrackOk(t: Track, cfg: Config) {
    && Sound(t.sender, cfg)
    && (!t.broken ==> Counted(t.sender, t.sends, cfg.attempts))
    && WithinBound(t.sends, cfg.attempts)
    && (t.broken ==> exists h: nat :: t.sends[h] == Bound(cfg.attempts))
  }

  lemma AppendCounted(s: Sender, sends: multiset<nat>, buffer: seq<byte>, id: nat, cfg: Config)
    requires Sound(s, cfg) && Counted(s, sends, cfg.attempts) && buffer != []
    ensures Counted(Append(s, buffer, id, cfg), sends, cfg.attempts)
  {
  }

  lemma {:induction false} ParseCounted(s: Sender, sends: multiset<nat>, secs: seq<Section>, limit: nat)
    requires Counted(s, sends, limit)
    ensures Counted(Parse(s, secs), sends, limit)
    decreases |secs|
  {
    if secs != [] {
      if secs[0].MoveEcho? {
        var s1 := s.(moves := s.moves - {secs[0].cursor});
        SettleFrame(s1, Cursor(s1));
        assert Counted(s1, sends, limit);
      }
      assert Counted(ParseSection(s, secs[0]), sends, limit);
      hide Counted;
      ParseCounted(ParseSection(s, secs[0]), sends, secs[1..], limit);
    }
  }

  lemma {:induction false} PlayKeeps(t: Track, es: seq<Happening>, cfg: Config)
    requires TrackOk(t, cfg) && cfg.attempts <= 255 && NoEmptyWrite(es)
    ensures TrackOk(Play(t, es, cfg), cfg)
    decreases |es|
  {
    if es != [] && !t.broken {
      hide Counted, WithinBound, Sends, Sound, Imbue, Append, Parse;
      match es[0]
      case Enqueue(buffer, id) =>
        AppendSound(t.sender, buffer, id, cfg);
        AppendCounted(t.sender, t.sends, buffer, id, cfg);
        PlayKeeps(t.(sender := Append(t.sender, buffer, id, cfg)), es[1..], cfg);
      case Hear(secs) =>
        ParseSound(t.sender, secs, cfg);
        ParseCounted(t.sender, t.sends, secs, cfg.attempts);
        PlayKeeps(t.(sender := Parse(t.sender, secs)), es[1..], cfg);
      case Fill(room, now, repeat) =>
        ImbueSound(t.sender, room, now, repeat, cfg);
        ImbueCounted(t.sender, t.sends, room, now, repeat, cfg);
        var b := Imbue(t.sender, room, now, repeat, cfg);
        PlayKeeps(Track(b.sender, t.sends + Sends(b.sections), !b.ok), es[1..], cfg);
    }
  }

  /**
   * Whatever the peer answers, up to the first broken pipe no fragment is sent more often than the limit allows,
   * and the pipe breaks only when some fragment has been sent exactly that often. A limit of 0 acts as 256.
   */
  lemma AttemptsAreBounded(es: seq<Happening>, cfg: Config)
    requires cfg.attempts <= 255 && NoEmptyWrite(es)
    ensures var t := Play(UNTOUCHED, es, cfg);
            && (forall h: nat :: t.sends[h] <= Bound(cfg.attempts))
            && (t.broken ==> exists h: nat :: t.sends[h] == Bound(cfg.attempts))
  {
    assert TrackOk(UNTOUCHED, cfg);
    PlayKeeps(UNTOUCHED, es, cfg);
  }

  // ---------------------------------------------------------------- limits the counter cannot honour

  ghost predicate Small(s: Sender) {
    forall h :: h in s.moves ==> s.moves[h].attempt < 256
  }

  /** An 8-bit counter never meets a limit above 255. */
  lemma {:induction false} ResendNeverBreaks(s: Sender, room: nat, now: nat, repeat: nat, limit: nat)
    requires limit >= 256 && Small(s)
    ensures Resend(s, room, now, repeat, limit).ok
    decreases |Overdue(s, now)|
  {
    hide Overdue, Due, Eligible;
    var due := Eligible(s, room, now);
    if due != {} {
      var h := MinOf(due);
      OverdueShrinks(s, now, h, repeat);
      ResendNeverBreaks(Repeated(s, h, now + repeat), room - SizeOf(Move(h, s.moves[h].data)), now, repeat, limit);
    }
  }

  lemma CutOnceSmall(s: Sender, max: nat, time: nat)
    requires s.queue != [] && Small(s)
    ensures Small(CutOnce(s, max, time))
  {
    hide Pull;
  }

  lemma {:induction false} CutSmall(s: Sender, room: nat, now: nat, repeat: nat, swarm: nat)
    requires s.head <= s.range && Small(s)
    ensures Small(Cut(s, room, now, repeat, swarm).sender)
    decreases |s.queue|, if s.queue == [] then 0 else |s.queue[0]|
  {
    hide Concat, NoEmptyChunk, CutOnce, CutSection, Pull, Small;
    var max := CutLimit(s, room, swarm);
    if max > 0 {
      CutOnceSmall(s, max, now + repeat);
      CutSmall(CutOnce(s, max, now + repeat), room - SizeOf(CutSection(s, max)), now, repeat, swarm);
    }
  }

  lemma ImbueSmall(s: Sender, room: nat, now: nat, repeat: nat, cfg: Config)
    requires s.head <= s.range && Small(s) && cfg.attempts >= 256
    ensures Imbue(s, room, now, repeat, cfg).ok && Small(Imbue(s, room, now, repeat, cfg).sender)
  {
    hide Resend, Cut, EchoEdges;
    ResendNeverBreaks(s, room, now, repeat, cfg.attempts);
    ResendCounters(s, room, now, repeat, cfg.attempts);
    ResendFrame(s, room, now, repeat, cfg.attempts);
    var first := Resend(s, room, now, repeat, cfg.attempts);
    CutSmall(first.sender, first.room, now, repeat, cfg.swarm);
    var second := Cut(first.sender, first.room, now, repeat, cfg.swarm);
    EchoEdgesFrame(second.sender, second.room);
  }

  lemma {:induction false} ParseSmall(s: Sender, secs: seq<Section>)
    requires Small(s)
    ensures Small(Parse(s, secs))
    decreases |secs|
  {
    if secs != [] {
      if secs[0].MoveEcho? {
        var s1 := s.(moves := s.moves - {secs[0].cursor});
        SettleFrame(s1, Cursor(s1));
      }
      ParseSmall(ParseSection(s, secs[0]), secs[1..]);
    }
  }

  lemma {:induction false} PlayNeverBreaks(t: Track, es: seq<Happening>, cfg: Config)
    requires cfg.attempts >= 256 && !t.broken && Small(t.sender)
    ensures !Play(t, es, cfg).broken
    decreases |es|
  {
    hide Small, Imbue, Parse, Sends, Sound;
    if es != [] && Sound(t.sender, cfg) {
      SoundFacts(t.sender, cfg);
      match es[0]
      case Enqueue(buffer, id) =>
        AppendSmall(t.sender, buffer, id, cfg);
        PlayNeverBreaks(t.(sender := Append(t.sender, buffer, id, cfg)), es[1..], cfg);
      case Hear(secs) =>
        ParseSmall(t.sender, secs);
        PlayNeverBreaks(t.(sender := Parse(t.sender, secs)), es[1..], cfg);
      case Fill(room, now, repeat) =>
        ImbueSmall(t.sender, room, now, repeat, cfg);
        var b := Imbue(t.sender, room, now, repeat, cfg);
        PlayNeverBreaks(Track(b.sender, t.sends + Sends(b.sections), !b.ok), es[1..], cfg);
    }
  }

  lemma SoundFacts(s: Sender, cfg: Config)
    requires Sound(s, cfg)
    ensures s.head <= s.range && s.head <= s.tail
  {
  }

  lemma AppendSmall(s: Sender, buffer: seq<byte>, id: nat, cfg: Config)
    requires s.head <= s.tail && Small(s)
    ensures Small(Append(s, buffer, id, cfg))
  {
  }

  /** With a limit above 255 no run ever breaks the pipe, however often fragments are sent. */
  lemma LargeLimitNeverBreaks(es: seq<Happening>, cfg: Config)
    requires cfg.attempts >= 256
    ensures !Play(UNTOUCHED, es, cfg).broken
  {
    PlayNeverBreaks(UNTOUCHED, es, cfg);
  }

  /** A sender whose only business is one flight of one byte. */
  ghost predicate Lonely(t: Track, n: nat) {
    && !t.broken && t.sends[0] == n
    && t.sender.queue == [] && t.sender.head == t.sender.tail == t.sender.range == 1
    && t.sender.moves.Keys == {0} && t.sender.moves[0].data == [0] && t.sender.moves[0].time < n
  }

  lemma LonelySound(t: Track, n: nat, cfg: Config)
    requires Lonely(t, n)
    ensures Sound(t.sender, cfg)
  {
  }

  /** A packet that holds one fragment and then echoes counts it once. */
  lemma OneSend(x: Section, s: Sender, room: nat)
    requires x.Move?
    ensures Sends([x] + EchoEdges(s, room).sections) == multiset{x.handle}
  {
    EchoEdgesFrame(s, room);
    NoSends(EchoEdges(s, room).sections);
    SendsCons(multiset{}, x, EchoEdges(s, room).sections);
  }

  lemma ResendLonely(s: Sender, n: nat, limit: nat)
    requires s.moves.Keys == {0} && s.moves[0].data == [0] && s.moves[0].time < n && s.moves[0].attempt != limit
    ensures Resend(s, 25, n, 0, limit) == Burst(Repeated(s, 0, n), [Move(0, [0])], 12, true)
  {
    assert Eligible(s, 25, n) == {0};
    assert MinOf({0}) == 0;
    assert Eligible(Repeated(s, 0, n), 12, n) == {};
    hide Eligible, Resend;
    ResendUnfolds(s, 25, n, 0, limit);
    ResendUnfolds(Repeated(s, 0, n), 12, n, 0, limit);
  }

  lemma RepeatLonely(t: Track, n: nat, cfg: Config)
    requires Lonely(t, n) && t.sender.moves[0].attempt != cfg.attempts
    ensures t.sender.head <= t.sender.range
    ensures var b := Imbue(t.sender, 25, n, 0, cfg);
            Lonely(Track(b.sender, t.sends + Sends(b.sections), !b.ok), n + 1)
  {
    hide Resend, EchoEdges, Sends, Eligible;
    var s := t.sender;
    var r := Repeated(s, 0, n);
    ResendLonely(s, n, cfg.attempts);
    OneSend(Move(0, [0]), r, 12);
    EchoEdgesFrame(r, 12);
    var echoes := EchoEdges(r, 12).sections;
    assert Imbue(s, 25, n, 0, cfg).sections == [Move(0, [0])] + [] + echoes == [Move(0, [0])] + echoes;
  }

  /** With a limit it never meets, the counter lets the flight be sent as often as anyone likes. */
  lemma {:induction false} SendForEver(t: Track, n: nat, more: nat, cfg: Config) returns (es: seq<Happening>)
    requires Lonely(t, n) && cfg.attempts >= 256 && Small(t.sender)
    ensures NoEmptyWrite(es) && Play(t, es, cfg).sends[0] == n + more
    decreases more
  {
    es := [];
    if more > 0 {
      hide Sends, Imbue;
      LonelySound(t, n, cfg);
      RepeatLonely(t, n, cfg);
      ImbueSmall(t.sender, 25, n, 0, cfg);
      var b := Imbue(t.sender, 25, n, 0, cfg);
      var rest := SendForEver(Track(b.sender, t.sends + Sends(b.sections), !b.ok), n + 1, more - 1, cfg);
      es := [Fill(25, n, 0)] + rest;
      assert es[1..] == rest;
    }
  }

  /** A sender with credit for one byte and that byte in its queue. */
  function Loaded1(cfg: Config): Sender {
    Append(OnEdge(InitSender(), 1), [0], 1, cfg)
  }

  lemma Loaded1Facts(cfg: Config)
    requires cfg.sendBuffer > 1
    ensures var s := Loaded1(cfg); s.queue == [[0]] && s.head == 0 && s.tail == s.range == 1 && s.moves == map[] && Sound(s, cfg)
    ensures Parse(InitSender(), [Edge(1)]) == OnEdge(InitSender(), 1)
    ensures Sound(InitSender(), cfg) && Sound(OnEdge(InitSender(), 1), cfg)
  {
    assert Concat([[0]]) == [0] + Concat([]);
    assert [Edge(1)][1..] == [];
    assert Parse(InitSender(), [Edge(1)]) == Parse(ParseSection(InitSender(), Edge(1)), []);
  }

  lemma NothingDue(s: Sender, room: nat, now: nat)
    requires s.moves == map[]
    ensures Eligible(s, room, now) == {}
  {
  }

  /** Its first packet flies the byte. */
  lemma FirstFill(s: Sender, cfg: Config)
    requires s.queue == [[0]] && s.head == 0 && s.tail == s.range == 1 && s.moves == map[] && cfg.swarm > 0
    ensures var b := Imbue(s, 25, 0, 0, cfg); var t := Track(b.sender, Sends(b.sections), !b.ok); Lonely(t, 1) && Small(t.sender)
  {
    hide Resend, Cut, EchoEdges, Sends, Eligible, Concat, NoEmptyChunk;
    NothingDue(s, 25, 0);
    var t := CutOnce(s, 1, 0);
    assert t.queue == [] && t.moves == map[0 := Flight([0], 0, 1)];
    ResendUnfolds(s, 25, 0, 0, cfg.attempts);
    CutUnfolds(s, 25, 0, 0, cfg.swarm);
    CutUnfolds(t, 12, 0, 0, cfg.swarm);
    assert CutSection(s, 1) == Move(0, [0]);
    OneSend(Move(0, [0]), t, 12);
    EchoEdgesFrame(t, 12);
    var echoes := EchoEdges(t, 12).sections;
    assert Imbue(s, 25, 0, 0, cfg).sections == [] + [Move(0, [0])] + echoes == [Move(0, [0])] + echoes;
  }

  /** The state once that byte has been sent. */
  ghost function Flown(cfg: Config): Track
    requires cfg.sendBuffer > 1
  {
    Loaded1Facts(cfg);
    var b := Imbue(Loaded1(cfg), 25, 0, 0, cfg);
    Track(b.sender, multiset{} + Sends(b.sections), !b.ok)
  }

  function Opening(more: seq<Happening>): seq<Happening> {
    [Hear([Edge(1)])] + ([Enqueue([0], 1)] + ([Fill(25, 0, 0)] + more))
  }

  lemma PlayCons(t: Track, e: Happening, more: seq<Happening>, cfg: Config)
    requires !t.broken && Sound(t.sender, cfg)
    ensures Play(t, [e] + more, cfg) == Play(Happens(t, e, cfg), more, cfg)
  {
    hide Happens, Sound;
    assert ([e] + more)[1..] == more;
  }

  /** A run that opens by flying one byte. */
  lemma FlyOneByte(more: seq<Happening>, cfg: Config)
    requires cfg.swarm > 0 && cfg.sendBuffer > 1 && NoEmptyWrite(more)
    ensures NoEmptyWrite(Opening(more)) && Play(UNTOUCHED, Opening(more), cfg) == Play(Flown(cfg), more, cfg)
    ensures Lonely(Flown(cfg), 1) && Small(Flown(cfg).sender)
  {
    Loaded1Facts(cfg);
    FirstFill(Loaded1(cfg), cfg);
    hide Parse, Imbue, Sends, Sound, Play;
    var t1 := UNTOUCHED.(sender := OnEdge(InitSender(), 1));
    var t2 := t1.(sender := Loaded1(cfg));
    PlayCons(UNTOUCHED, Hear([Edge(1)]), [Enqueue([0], 1)] + ([Fill(25, 0, 0)] + more), cfg);
    PlayCons(t1, Enqueue([0], 1), [Fill(25, 0, 0)] + more, cfg);
    PlayCons(t2, Fill(25, 0, 0), more, cfg);
    var b := Imbue(Loaded1(cfg), 25, 0, 0, cfg);
    assert multiset{} + Sends(b.sections) == Sends(b.sections);
  }

  /** All runs without empty writes send no fragment more often than the limit says. */
  ghost predicate Honoured(cfg: Config) {
    forall es :: NoEmptyWrite(es) ==> WithinLimit(Play(UNTOUCHED, es, cfg), cfg)
  }

  ghost predicate WithinLimit(t: Track, cfg: Config) {
    forall h: nat :: t.sends[h] <= cfg.attempts
  }

  /** The limit is honoured if and only if it lies in 1 to 255. */
  lemma LimitIsHonouredIff(cfg: Config)
    requires cfg.swarm > 0 && cfg.sendBuffer > 1
    ensures Honoured(cfg) <==> 1 <= cfg.attempts <= 255
  {
    hide Sends, Imbue, Opening;
    if 1 <= cfg.attempts <= 255 {
      forall es | NoEmptyWrite(es) ensures WithinLimit(Play(UNTOUCHED, es, cfg), cfg) {
        AttemptsAreBounded(es, cfg);
      }
    } else {
      var more := [];
      FlyOneByte(more, cfg);
      if cfg.attempts >= 256 {
        more := SendForEver(Flown(cfg), 1, cfg.attempts, cfg);
        FlyOneByte(more, cfg);
      }
      assert Play(UNTOUCHED, Opening(more), cfg).sends[0] > cfg.attempts;
      assert !WithinLimit(Play(UNTOUCHED, Opening(more), cfg), cfg);
    }
  }

  // ---------------------------------------------------------------- what an empty write does

  /** The queue once an accepted empty write stands behind `before` and in front of `after`, empty or not. */
  ghost predicate HollowBehind(s: Sender, before: seq<seq<byte>>, after: seq<seq<byte>>) {
    s.queue == before + [[]] + after
  }

  /** The next handle is free, or an earlier empty fragment has taken it. */
  ghost predicate HandleFree(s: Sender) {
    s.head in s.moves ==> s.moves[s.head].data == []
  }

  /** A zero-length write is reported as refused but stays queued, and `on_error` is posted. */
  lemma EmptyWriteStays(s: Sender, id: nat, cfg: Config)
    requires Sound(s, cfg) && Accepts(s, 0, cfg)
    ensures var t := Append(s, [], id, cfg);
            && t.posted == s.posted + [WritePost(id, NoBufferSpace, 0)]
            && t.alarms == s.alarms + [NoBufferSpace]
            && HollowBehind(t, s.queue, [])
            && t.writers == s.writers
  {
    assert s.queue + [[]] + [] == s.queue + [[]];
  }

  /** Further writes line up behind it, empty ones included. */
  lemma HollowStays(s: Sender, before: seq<seq<byte>>, after: seq<seq<byte>>, buffer: seq<byte>, id: nat, cfg: Config)
    requires HollowBehind(s, before, after) && s.head <= s.tail
    ensures HollowBehind(Append(s, buffer, id, cfg), before, if Accepts(s, |buffer|, cfg) then after + [buffer] else after)
  {
    assert (before + [[]] + after) + [buffer] == before + [[]] + (after + [buffer]);
  }

  /** Cutting what stands before it brings it to the front: nothing overtakes, nothing is dropped. */
  lemma HollowMovesUp(s: Sender, before: seq<seq<byte>>, after: seq<seq<byte>>, max: nat, time: nat)
    requires HollowBehind(s, before, after) && before != [] && max > 0
    ensures HollowBehind(CutOnce(s, max, time), Pull(before, max).1, after)
  {
    var rest := [[]] + after;
    assert s.queue == before + rest;
    assert s.queue[0] == before[0] && s.queue[1..] == before[1..] + rest;
    if |before[0]| > max {
      var half := [before[0][max..]];
      assert half + (before[1..] + rest) == (half + before[1..]) + rest;
    }
    assert (Pull(before, max).1) + rest == Pull(before, max).1 + [[]] + after;
    hide Concat;
  }

  /**
   * At the front it is cut as an empty fragment, under the handle that what stands behind it is cut with next. If that
   * is another empty write, the same happens again.
   */
  lemma HollowIsCut(s: Sender, after: seq<seq<byte>>, max: nat, time: nat)
    requires HollowBehind(s, [], after) && HandleFree(s)
    ensures CutSection(s, max) == Move(s.head, [])
    ensures var t := CutOnce(s, max, time);
            && t.queue == after && t.head == s.head && t.moves == Emplace(s.moves, s.head, Flight([], time, 1))
            && t.head in t.moves && t.moves[t.head].data == [] && HandleFree(t)
  {
    assert s.queue == [[]] + after && s.queue[1..] == after;
  }

  /**
   * Once an empty fragment has been cut, the bytes behind it get a flight of their own if and only if its echo is heard
   * before they are cut; otherwise they are sent under the same handle but never enter the flight table.
   */
  lemma HollowLosesFlightIff(s: Sender, data: seq<byte>, after: seq<seq<byte>>, max: nat, time: nat, heard: seq<Section>,
                             max': nat, time': nat)
    requires HollowBehind(s, [], [data] + after) && HandleFree(s) && data != [] && max' > 0
    ensures var t := Parse(CutOnce(s, max, time), heard);
            && t.queue == [data] + after && t.head == s.head
            && CutSection(t, max').fragment != [] && CutSection(t, max').handle == s.head
            && var u := CutOnce(t, max', time');
               && s.head in u.moves && u.head > s.head
               && (u.moves[s.head].data == CutSection(t, max').fragment <==> MoveEcho(s.head) in heard)
               && (MoveEcho(s.head) !in heard ==> u.moves[s.head].data == [])
  {
    HollowIsCut(s, [data] + after, max, time);
    ParseMoves(CutOnce(s, max, time), heard);
  }

  // ---------------------------------------------------------------- writable

  /**
   * `writable` counts up to an exact fill of the send buffer, `append` refuses one: a write of exactly
   * `writable()` bytes is accepted if and only if the peer's credit, not the send buffer, is the smaller limit.
   */
  lemma WritableIsAccepted(s: Sender, cfg: Config)
    requires Sound(s, cfg) && Writable(s, cfg) > 0
    ensures Accepts(s, Writable(s, cfg), cfg) <==> s.range - s.head < cfg.sendBuffer
    ensures forall n: nat :: n < Writable(s, cfg) ==> Accepts(s, n, cfg)
  {
  }
}
