/** When a fragment is sent again: never before its interval has passed. */
module Retransmission {
  import opened Containers
  import opened Protocol
  import opened Sending
  import opened FlightLaws
  import SL = SenderLaws
  import PL = PassLaws

  /** The bytes under handle h have been cut, and are in flight until `due` or have been acknowledged. */
  ghost predicate Waits(s: Sender, h: nat, due: nat) {
    h < s.head && (h in s.moves ==> s.moves[h].time >= due)
  }

  /** No packet is filled after `due`. */
  ghost predicate FilledBy(es: seq<Happening>, due: nat) {
    forall i :: 0 <= i < |es| && es[i].Fill? ==> es[i].now <= due
  }

  lemma AppendWaits(s: Sender, buffer: seq<byte>, id: nat, h: nat, due: nat, cfg: Config)
    requires Sound(s, cfg) && Loaded(s) && Waits(s, h, due) && buffer != []
    ensures Loaded(Append(s, buffer, id, cfg)) && Waits(Append(s, buffer, id, cfg), h, due)
  {
  }

  lemma ParseWaits(s: Sender, secs: seq<Section>, h: nat, due: nat)
    requires Loaded(s) && Waits(s, h, due)
    ensures Loaded(Parse(s, secs)) && Waits(Parse(s, secs), h, due)
  {
    SL.ParseMoves(s, secs);
  }

  /** A packet filled by then does not hold the fragment. */
  lemma FillWaits(s: Sender, room: nat, now: nat, repeat: nat, h: nat, due: nat, cfg: Config)
    requires Sound(s, cfg) && Loaded(s) && Waits(s, h, due) && now <= due
    ensures var b := Imbue(s, room, now, repeat, cfg);
            && Loaded(b.sender) && Waits(b.sender, h, due)
            && forall x :: x in b.sections && x.Move? ==> x.handle != h
  {
    hide Imbue, Concat, PL.SentSince;
    PassKeepsLoaded(s, room, now, repeat, cfg);
    PL.PassStamps(s, room, now, repeat, cfg);
    NotRepeated(s, room, now, repeat, h, cfg);
    StampWaits(s, Imbue(s, room, now, repeat, cfg), h, due, now, repeat);
  }

  lemma StampWaits(s: Sender, b: Burst, h: nat, due: nat, now: nat, repeat: nat)
    requires PL.SentSince(s, b.sender, b.sections, now, repeat) && Waits(s, h, due) && s.head <= b.sender.head
    requires forall x :: x in b.sections && x.Move? ==> x.handle != h
    ensures Waits(b.sender, h, due)
  {
  }

  lemma PassKeepsLoaded(s: Sender, room: nat, now: nat, repeat: nat, cfg: Config)
    requires s.head <= s.range && Loaded(s)
    ensures var b := Imbue(s, room, now, repeat, cfg); Loaded(b.sender) && s.head <= b.sender.head
  {
    hide Resend, Cut, EchoEdges, Concat, SizeOfAll;
    ResendFrame(s, room, now, repeat, cfg.attempts);
    var first := Resend(s, room, now, repeat, cfg.attempts);
    PL.LoadedStays(s, first.sender);
    if first.ok {
      CutKeepsLoaded(first.sender, first.room, now, repeat, cfg.swarm);
      var second := Cut(first.sender, first.room, now, repeat, cfg.swarm);
      SL.EchoEdgesFrame(second.sender, second.room);
    }
  }

  lemma {:induction false} CutKeepsLoaded(s: Sender, room: nat, now: nat, repeat: nat, swarm: nat)
    requires s.head <= s.range && Loaded(s)
    ensures var b := Cut(s, room, now, repeat, swarm); Loaded(b.sender) && s.head <= b.sender.head
    ensures forall x :: x in Cut(s, room, now, repeat, swarm).sections ==> x.Move? && x.handle >= s.head
    decreases |s.queue|, if s.queue == [] then 0 else |s.queue[0]|
  {
    hide CutOnce, Pull, NoEmptyChunk, Concat, Loaded;
    CutUnfolds(s, room, now, repeat, swarm);
    var max := CutLimit(s, room, swarm);
    if max > 0 {
      CutOnceLoaded(s, max, now + repeat);
      CutKeepsLoaded(CutOnce(s, max, now + repeat), room - SizeOf(CutSection(s, max)), now, repeat, swarm);
    }
  }

  /** A flight that is not overdue is not repeated, and its handle is not cut again. */
  lemma NotRepeated(s: Sender, room: nat, now: nat, repeat: nat, h: nat, cfg: Config)
    requires s.head <= s.range && Loaded(s) && h < s.head && (h in s.moves ==> s.moves[h].time >= now)
    ensures forall x :: x in Imbue(s, room, now, repeat, cfg).sections && x.Move? ==> x.handle != h
  {
    hide Resend, Cut, EchoEdges, Concat, SizeOfAll, Loaded;
    ResendOnce(s, room, now, repeat, cfg.attempts);
    ResendFrame(s, room, now, repeat, cfg.attempts);
    var first := Resend(s, room, now, repeat, cfg.attempts);
    if first.ok {
      PL.LoadedStays(s, first.sender);
      CutKeepsLoaded(first.sender, first.room, now, repeat, cfg.swarm);
      var second := Cut(first.sender, first.room, now, repeat, cfg.swarm);
      SL.EchoEdgesFrame(second.sender, second.room);
    }
  }

  lemma {:induction false} NoneBefore(t: Track, h: nat, due: nat, es: seq<Happening>, cfg: Config)
    requires Loaded(t.sender) && Waits(t.sender, h, due) && NoEmptyWrite(es) && FilledBy(es, due)
    ensures Play(t, es, cfg).sends[h] == t.sends[h]
    decreases |es|
  {
    hide Loaded, Waits, Sound, Imbue, Append, Parse, Sends;
    if es != [] && !t.broken && Sound(t.sender, cfg) {
      match es[0]
      case Enqueue(buffer, id) =>
        SoundFacts(t.sender, cfg);
        AppendWaits(t.sender, buffer, id, h, due, cfg);
        NoneBefore(t.(sender := Append(t.sender, buffer, id, cfg)), h, due, es[1..], cfg);
      case Hear(secs) =>
        ParseWaits(t.sender, secs, h, due);
        NoneBefore(t.(sender := Parse(t.sender, secs)), h, due, es[1..], cfg);
      case Fill(room, now, repeat) =>
        SoundFacts(t.sender, cfg);
        FillWaits(t.sender, room, now, repeat, h, due, cfg);
        var b := Imbue(t.sender, room, now, repeat, cfg);
        NotCounted(b.sections, h);
        NoneBefore(Track(b.sender, t.sends + Sends(b.sections), !b.ok), h, due, es[1..], cfg);
    }
  }

  lemma {:induction false} NotCounted(secs: seq<Section>, h: nat)
    requires forall x :: x in secs && x.Move? ==> x.handle != h
    ensures Sends(secs)[h] == 0
    decreases |secs|
  {
    if secs != [] {
      NotCounted(secs[1..], h);
    }
  }

  lemma {:induction false} Occurs(secs: seq<Section>, h: nat)
    requires Sends(secs)[h] > 0
    ensures exists d :: Move(h, d) in secs
    decreases |secs|
  {
    if secs != [] {
      if secs[0].Move? && secs[0].handle == h {
        assert Move(h, secs[0].fragment) in secs;
      } else {
        Occurs(secs[1..], h);
        var d :| Move(h, d) in secs[1..];
        assert Move(h, d) in secs;
      }
    }
  }

  /** What runs keep of a sender whose writes are not empty. */
  lemma {:induction false} PlayLoaded(t: Track, es: seq<Happening>, cfg: Config)
    requires Loaded(t.sender) && NoEmptyWrite(es)
    ensures Loaded(Play(t, es, cfg).sender)
    decreases |es|
  {
    hide Loaded, Sound, Imbue, Append, Parse, Sends;
    if es != [] && !t.broken && Sound(t.sender, cfg) {
      SoundFacts(t.sender, cfg);
      match es[0]
      case Enqueue(buffer, id) =>
        AppendLoaded(t.sender, buffer, id, cfg);
        PlayLoaded(t.(sender := Append(t.sender, buffer, id, cfg)), es[1..], cfg);
      case Hear(secs) =>
        ParseLoaded(t.sender, secs);
        PlayLoaded(t.(sender := Parse(t.sender, secs)), es[1..], cfg);
      case Fill(room, now, repeat) =>
        PassKeepsLoaded(t.sender, room, now, repeat, cfg);
        var b := Imbue(t.sender, room, now, repeat, cfg);
        PlayLoaded(Track(b.sender, t.sends + Sends(b.sections), !b.ok), es[1..], cfg);
    }
  }

  lemma AppendLoaded(s: Sender, buffer: seq<byte>, id: nat, cfg: Config)
    requires Loaded(s) && s.head <= s.tail && buffer != []
    ensures Loaded(Append(s, buffer, id, cfg))
  {
  }

  lemma ParseLoaded(s: Sender, secs: seq<Section>)
    requires Loaded(s)
    ensures Loaded(Parse(s, secs))
  {
    SL.ParseMoves(s, secs);
  }

  /**
   * In every run of writes, packets and acknowledgements: a fragment that a packet filled at `now` holds is in no later
   * packet filled at or before `now + repeat`, whatever the other packets' intervals are.
   */
  lemma SentOnceUntilDue(before: seq<Happening>, room: nat, now: nat, repeat: nat, h: nat, after: seq<Happening>, cfg: Config)
    requires NoEmptyWrite(before) && NoEmptyWrite(after) && FilledBy(after, now + repeat)
    requires var t := Play(UNTOUCHED, before, cfg);
             Sound(t.sender, cfg) && Happens(t, Fill(room, now, repeat), cfg).sends[h] > t.sends[h]
    ensures var u := Happens(Play(UNTOUCHED, before, cfg), Fill(room, now, repeat), cfg);
            Play(u, after, cfg).sends[h] == u.sends[h]
  {
    hide Loaded, Sound, Imbue, Sends, Waits, PL.SentSince;
    UntouchedLoaded();
    PlayLoaded(UNTOUCHED, before, cfg);
    var t := Play(UNTOUCHED, before, cfg);
    SoundFacts(t.sender, cfg);
    var b := Imbue(t.sender, room, now, repeat, cfg);
    Occurs(b.sections, h);
    PassKeepsLoaded(t.sender, room, now, repeat, cfg);
    PL.PassStamps(t.sender, room, now, repeat, cfg);
    JustSent(t.sender, b, h, now, repeat);
    NoneBefore(Happens(t, Fill(room, now, repeat), cfg), h, now + repeat, after, cfg);
  }

  lemma UntouchedLoaded()
    ensures Loaded(UNTOUCHED.sender)
  {
  }

  lemma JustSent(s: Sender, b: Burst, h: nat, now: nat, repeat: nat)
    requires PL.SentSince(s, b.sender, b.sections, now, repeat) && Loaded(b.sender) && exists d :: Move(h, d) in b.sections
    ensures Waits(b.sender, h, now + repeat)
  {
    var d :| Move(h, d) in b.sections;
    assert b.sender.moves[h].data == d;
  }
}
