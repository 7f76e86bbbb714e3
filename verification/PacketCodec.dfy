/** The byte layout of a UDP packet: how sections are written into a reused buffer and read back. */
module PacketCodec {
  import opened Containers
  import opened Protocol

  // ---------------------------------------------------------------- bytes as numbers

  predicate Bit(b: byte, mask: byte) { b & mask != 0 }

  function Weight(on: bool, w: nat): nat { if on then w else 0 }

  function Mark(on: bool, w: byte): byte { if on then w else 0 }

  function Pack(b7: bool, b6: bool, b5: bool, b4: bool, b3: bool, b2: bool, b1: bool, b0: bool): byte {
    Mark(b7, 0x80) | Mark(b6, 0x40) | Mark(b5, 0x20) | Mark(b4, 0x10)
    | Mark(b3, 8) | Mark(b2, 4) | Mark(b1, 2) | Mark(b0, 1)
  }

  /** What is left of n once a bit of weight w is taken out of it. */
  function Rest(n: nat, w: nat): nat { if n >= w then n - w else n }

  lemma Split(n: nat, w: nat)
    requires n < 2 * w
    ensures n == Weight(n >= w, w) + Rest(n, w) && Rest(n, w) < w
  {
  }

  /** The byte whose value is n. */
  function ByteOf(n: nat): byte
    requires n < 256
  {
    var n6 := Rest(n, 128);
    var n5 := Rest(n6, 64);
    var n4 := Rest(n5, 32);
    var n3 := Rest(n4, 16);
    var n2 := Rest(n3, 8);
    var n1 := Rest(n2, 4);
    var n0 := Rest(n1, 2);
    Pack(n >= 128, n6 >= 64, n5 >= 32, n4 >= 16, n3 >= 8, n2 >= 4, n1 >= 2, n0 >= 1)
  }

  function NatOf(b: byte): nat {
    Weight(Bit(b, 0x80), 128) + Weight(Bit(b, 0x40), 64) + Weight(Bit(b, 0x20), 32) + Weight(Bit(b, 0x10), 16)
    + Weight(Bit(b, 8), 8) + Weight(Bit(b, 4), 4) + Weight(Bit(b, 2), 2) + Weight(Bit(b, 1), 1)
  }

  lemma PackBits(b7: bool, b6: bool, b5: bool, b4: bool, b3: bool, b2: bool, b1: bool, b0: bool)
    ensures var b := Pack(b7, b6, b5, b4, b3, b2, b1, b0);
      && Bit(b, 0x80) == b7 && Bit(b, 0x40) == b6 && Bit(b, 0x20) == b5 && Bit(b, 0x10) == b4
      && Bit(b, 8) == b3 && Bit(b, 4) == b2 && Bit(b, 2) == b1 && Bit(b, 1) == b0
  {
  }

  lemma ByteRoundTrip(n: nat)
    requires n < 256
    ensures NatOf(ByteOf(n)) == n
  {
    hide Pack, Bit, Weight, Rest;
    var n6 := Rest(n, 128);
    var n5 := Rest(n6, 64);
    var n4 := Rest(n5, 32);
    var n3 := Rest(n4, 16);
    var n2 := Rest(n3, 8);
    var n1 := Rest(n2, 4);
    var n0 := Rest(n1, 2);
    Split(n, 128); Split(n6, 64); Split(n5, 32); Split(n4, 16);
    Split(n3, 8); Split(n2, 4); Split(n1, 2); Split(n0, 1);
    PackBits(n >= 128, n6 >= 64, n5 >= 32, n4 >= 16, n3 >= 8, n2 >= 4, n1 >= 2, n0 >= 1);
  }

  // ---------------------------------------------------------------- numbers in network order

  function Pow256(width: nat): (p: nat)
    ensures p > 0
  {
    if width == 0 then 1 else 256 * Pow256(width - 1)
  }

  /** The `width` low bytes of n, most significant first. */
  function BigEndian(n: nat, width: nat): (s: seq<byte>)
    ensures |s| == width
  {
    if width == 0 then [] else BigEndian(n / 256, width - 1) + [ByteOf(n % 256)]
  }

  function Number(s: seq<byte>): nat {
    if s == [] then 0 else Number(s[..|s| - 1]) * 256 + NatOf(s[|s| - 1])
  }

  lemma {:induction false} NumberRoundTrip(n: nat, width: nat)
    requires n < Pow256(width)
    ensures Number(BigEndian(n, width)) == n
  {
    hide ByteOf, NatOf;
    if width > 0 {
      NumberRoundTrip(n / 256, width - 1);
      ByteRoundTrip(n % 256);
      var s := BigEndian(n, width);
      assert s[..|s| - 1] == BigEndian(n / 256, width - 1);
    }
  }

  lemma Widths()
    ensures Pow256(2) == 0x1_0000 && Pow256(4) == 0x1_0000_0000 && Pow256(8) == 0x1_0000_0000_0000_0000
  {
    assert Pow256(1) == 256;
    assert Pow256(3) == 256 * Pow256(2);
    assert Pow256(5) == 256 * Pow256(4);
    assert Pow256(6) == 256 * Pow256(5);
    assert Pow256(7) == 256 * Pow256(6);
  }

  // ---------------------------------------------------------------- sections as bytes

  function TypeOf(x: Section): (t: nat)
    ensures 2 <= t <= 11
  {
    match x
    case Link => 2
    case LinkEcho => 3
    case Tear => 4
    case TearEcho => 5
    case Ping(_) => 6
    case PingEcho(_) => 7
    case Move(_, _) => 8
    case MoveEcho(_) => 9
    case Edge(_) => 10
    case EdgeEcho(_) => 11
  }

  function Payload(x: Section): (p: seq<byte>)
    ensures |p| + SECTION_HEADER == SizeOf(x)
  {
    match x
    case Link => []
    case LinkEcho => []
    case Tear => []
    case TearEcho => []
    case Ping(v) => BigEndian(v, 8)
    case PingEcho(v) => BigEndian(v, 8)
    case Move(h, d) => BigEndian(h, 8) + d
    case MoveEcho(v) => BigEndian(v, 8)
    case Edge(v) => BigEndian(v, 8)
    case EdgeEcho(v) => BigEndian(v, 8)
  }

  const U64: nat := 0x1_0000_0000_0000_0000

  /** Values fit 64 bits and the length of a fragment fits the 16-bit length field. */
  predicate Encodable(x: Section) {
    match x
    case Ping(v) => v < U64
    case PingEcho(v) => v < U64
    case Move(h, d) => h < U64 && HANDLE_SIZE + |d| < 0x1_0000
    case MoveEcho(v) => v < U64
    case Edge(v) => v < U64
    case EdgeEcho(v) => v < U64
    case _ => true
  }

  predicate AllEncodable(xs: seq<Section>) {
    forall i :: 0 <= i < |xs| ==> Encodable(xs[i])
  }

  function EncodeSection(x: Section): (s: seq<byte>)
    ensures |s| == SizeOf(x)
  {
    BigEndian(TypeOf(x), 2) + BigEndian(|Payload(x)|, 2) + Payload(x)
  }

  function Encode(xs: seq<Section>): (s: seq<byte>)
    ensures |s| == SizeOfAll(xs)
  {
    if xs == [] then [] else EncodeSection(xs[0]) + Encode(xs[1..])
  }

  lemma {:induction false} EncodeAppend(a: seq<Section>, b: seq<Section>)
    ensures Encode(a + b) == Encode(a) + Encode(b)
  {
    if a == [] {
      assert a + b == b;
    } else {
      assert (a + b)[1..] == a[1..] + b;
      EncodeAppend(a[1..], b);
    }
  }

  // ---------------------------------------------------------------- reading a view

  /** `type`: 0 when the view is too short for a section header. */
  function Type(s: seq<byte>): nat {
    if |s| >= SECTION_HEADER then Number(s[..2]) else 0
  }

  function Length(s: seq<byte>): nat {
    if |s| >= SECTION_HEADER then Number(s[2..4]) else 0
  }

  predicate Valid(s: seq<byte>) {
    var t := Type(s);
    if t == 6 || t == 10 || t == 7 || t == 11 || t == 9 then
      |s| >= SECTION_HEADER + VALUE_SIZE && Length(s) == VALUE_SIZE
    else if t == 2 || t == 4 || t == 3 || t == 5 then
      |s| >= SECTION_HEADER && Length(s) == 0
    else if t == 8 then
      |s| >= SECTION_HEADER + HANDLE_SIZE && Length(s) <= |s| - SECTION_HEADER
    else false
  }

  function Value(s: seq<byte>): seq<byte> {
    if |s| < SECTION_HEADER then [] else s[SECTION_HEADER..SECTION_HEADER + Min(|s| - SECTION_HEADER, Length(s))]
  }

  /** Bytes `advance` moves over. */
  function Stride(s: seq<byte>): (n: nat)
    ensures n <= |s|
  {
    if |s| < SECTION_HEADER then |s| else SECTION_HEADER + Min(|s| - SECTION_HEADER, Length(s))
  }

  /** A move section too short for the handle that `snippet` reads from it; `valid` lets it pass. */
  predicate Short(s: seq<byte>) {
    Type(s) == 8 && Length(s) < HANDLE_SIZE
  }

  /** The section at the front of a valid view whose fragment, if it is one, has room for its handle. */
  function Front(s: seq<byte>): Section
    requires Valid(s) && !Short(s)
  {
    var t := Type(s);
    var v := Value(s);
    if t == 2 then Link
    else if t == 3 then LinkEcho
    else if t == 4 then Tear
    else if t == 5 then TearEcho
    else if t == 6 then Ping(Number(v))
    else if t == 7 then PingEcho(Number(v))
    else if t == 8 then Move(Number(v[..8]), v[8..])
    else if t == 9 then MoveEcho(Number(v))
    else if t == 10 then Edge(Number(v))
    else EdgeEcho(Number(v))
  }

  /** Where a body holds a move section too short for its handle: behind so many sections. */
  datatype Flaw = Flawless | ShortAfter(n: nat)

  /** The sections of a body, short ones left out, and where the first short one stands. */
  datatype Body = Body(sections: seq<Section>, flaw: Flaw)

  const NOTHING: Body := Body([], Flawless)

  function Followed(b: Body, c: Body): Body {
    Body(b.sections + c.sections,
         if b.flaw.ShortAfter? then b.flaw
         else if c.flaw.ShortAfter? then ShortAfter(|b.sections| + c.flaw.n)
         else Flawless)
  }

  /** What the front of a valid view contributes. */
  function FrontBody(s: seq<byte>): Body
    requires Valid(s)
  {
    if Short(s) then Body([], ShortAfter(0)) else Body([Front(s)], Flawless)
  }

  /** What the parsing loops see of a body; they step over whatever is valid. */
  function ParseBody(s: seq<byte>): (b: Body)
    ensures b.flaw.ShortAfter? ==> b.flaw.n <= |b.sections|
    decreases |s|
  {
    if !Valid(s) then NOTHING else Followed(FrontBody(s), ParseBody(s[Stride(s)..]))
  }

  lemma FollowedTwice(b: Body, c: Body, d: Body)
    ensures Followed(Followed(b, c), d) == Followed(b, Followed(c, d))
    ensures Followed(NOTHING, d) == d && Followed(d, NOTHING) == d
  {
    assert (b.sections + c.sections) + d.sections == b.sections + (c.sections + d.sections);
  }

  // ---------------------------------------------------------------- round trip

  lemma HeaderFields(x: Section, rest: seq<byte>)
    requires Encodable(x)
    ensures var s := EncodeSection(x) + rest;
            && |s| >= SECTION_HEADER
            && Type(s) == TypeOf(x)
            && Length(s) == |Payload(x)|
            && s[SECTION_HEADER..] == Payload(x) + rest
  {
    hide Number, BigEndian, Pow256, ByteOf, NatOf;
    var s := EncodeSection(x) + rest;
    Widths();
    NumberRoundTrip(TypeOf(x), 2);
    NumberRoundTrip(|Payload(x)|, 2);
    assert s[..2] == BigEndian(TypeOf(x), 2);
    assert s[2..4] == BigEndian(|Payload(x)|, 2);
  }

  lemma FrontRoundTrip(x: Section, rest: seq<byte>)
    requires Encodable(x)
    ensures var s := EncodeSection(x) + rest;
            Valid(s) && !Short(s) && Front(s) == x && Stride(s) == SizeOf(x) && s[Stride(s)..] == rest
  {
    hide Number, BigEndian, ByteOf, NatOf, Pow256;
    HeaderFields(x, rest);
    var s := EncodeSection(x) + rest;
    assert Value(s) == Payload(x);
    Widths();
    match x
    case Move(h, d) =>
      NumberRoundTrip(h, 8);
      assert Payload(x)[..8] == BigEndian(h, 8) && Payload(x)[8..] == d;
    case Ping(v) => NumberRoundTrip(v, 8);
    case PingEcho(v) => NumberRoundTrip(v, 8);
    case MoveEcho(v) => NumberRoundTrip(v, 8);
    case Edge(v) => NumberRoundTrip(v, 8);
    case EdgeEcho(v) => NumberRoundTrip(v, 8);
    case _ =>
  }

  lemma ParseFirst(x: Section, rest: seq<byte>)
    requires Encodable(x)
    ensures ParseBody(EncodeSection(x) + rest) == Followed(Body([x], Flawless), ParseBody(rest))
  {
    FrontRoundTrip(x, rest);
    hide EncodeSection, Front, Stride, Valid, Short, Followed;
  }

  /** Encoded sections parse back to themselves, and then the parser goes on with whatever follows them. */
  lemma {:induction false} ParseEncoded(xs: seq<Section>, rest: seq<byte>)
    requires AllEncodable(xs)
    ensures ParseBody(Encode(xs) + rest) == Followed(Body(xs, Flawless), ParseBody(rest))
    decreases |xs|
  {
    hide EncodeSection, ParseBody, SizeOfAll, SizeOf;
    if xs == [] {
      assert Encode(xs) + rest == rest;
      FollowedTwice(NOTHING, NOTHING, ParseBody(rest));
    } else {
      var tail := Encode(xs[1..]) + rest;
      assert Encode(xs) + rest == EncodeSection(xs[0]) + tail;
      ParseFirst(xs[0], tail);
      ParseEncoded(xs[1..], rest);
      FollowedTwice(Body([xs[0]], Flawless), Body(xs[1..], Flawless), ParseBody(rest));
      assert [xs[0]] + xs[1..] == xs;
    }
  }

  /** A view that starts with a stub, or is too short for a section, holds no section. */
  lemma StubEnds(s: seq<byte>)
    requires Type(s) == 0
    ensures ParseBody(s) == NOTHING
  {
  }

  // ---------------------------------------------------------------- writing into the packet buffer

  const HEADER: nat := 16
  const SIGN: nat := 0x0909
  const VERSION: nat := 0x0102

  /** The contents of a buffer once `s` has been written at `pos`. */
  function Patch(buffer: seq<byte>, pos: nat, s: seq<byte>): (r: seq<byte>)
    requires pos + |s| <= |buffer|
    ensures |r| == |buffer|
  {
    buffer[..pos] + s + buffer[pos + |s|..]
  }

  /** `fill`, and `set` for the bytes of a number in network order. */
  method Put(a: array<byte>, pos: nat, s: seq<byte>)
    requires pos + |s| <= a.Length
    modifies a
    ensures a[..] == Patch(old(a[..]), pos, s)
  {
    var i := 0;
    while i < |s|
      invariant 0 <= i <= |s|
      invariant forall k :: 0 <= k < i ==> a[pos + k] == s[k]
      invariant forall k :: 0 <= k < a.Length && !(pos <= k < pos + i) ==> a[k] == old(a[k])
    {
      a[pos + i] := s[i];
      i := i + 1;
    }
    assert a[pos..pos + |s|] == s;
    assert a[..pos] == old(a[..])[..pos];
    assert a[pos + |s|..] == old(a[..])[pos + |s|..];
    assert a[..] == a[..pos] + a[pos..pos + |s|] + a[pos + |s|..];
  }

  lemma PatchAfter(buffer: seq<byte>, pos: nat, s: seq<byte>, t: seq<byte>)
    requires pos + |s| + |t| <= |buffer|
    ensures Patch(Patch(buffer, pos, s), pos + |s|, t) == Patch(buffer, pos, s + t)
  {
  }

  method Simple(a: array<byte>, pos: nat, x: Section)
    requires (x.Link? || x.LinkEcho? || x.Tear? || x.TearEcho?) && pos + SECTION_HEADER <= a.Length
    modifies a
    ensures a[..] == Patch(old(a[..]), pos, EncodeSection(x))
  {
    hide Patch, BigEndian, ByteOf, NatOf;
    Put(a, pos, BigEndian(TypeOf(x), 2));
    Put(a, pos + 2, BigEndian(0, 2));
    PatchAfter(old(a[..]), pos, BigEndian(TypeOf(x), 2), BigEndian(0, 2));
    assert EncodeSection(x) == BigEndian(TypeOf(x), 2) + BigEndian(0, 2);
  }

  method Numeral(a: array<byte>, pos: nat, x: Section, value: nat)
    requires Payload(x) == BigEndian(value, 8) && pos + SECTION_HEADER + VALUE_SIZE <= a.Length
    modifies a
    ensures a[..] == Patch(old(a[..]), pos, EncodeSection(x))
  {
    hide Patch, BigEndian, ByteOf, NatOf;
    Put(a, pos, BigEndian(TypeOf(x), 2));
    Put(a, pos + 2, BigEndian(8, 2));
    Put(a, pos + 4, BigEndian(value, 8));
    PatchAfter(old(a[..]), pos, BigEndian(TypeOf(x), 2), BigEndian(8, 2));
    PatchAfter(old(a[..]), pos, BigEndian(TypeOf(x), 2) + BigEndian(8, 2), BigEndian(value, 8));
  }

  /** A fragment; its length field holds the low 16 bits of the length, whatever the length. */
  method Snippet(a: array<byte>, pos: nat, handle: nat, data: seq<byte>)
    requires pos + SECTION_HEADER + HANDLE_SIZE + |data| <= a.Length
    modifies a
    ensures a[..] == Patch(old(a[..]), pos, EncodeSection(Move(handle, data)))
  {
    hide Patch, BigEndian, ByteOf, NatOf;
    var head := BigEndian(8, 2);
    var size := BigEndian(HANDLE_SIZE + |data|, 2);
    Put(a, pos, head);
    Put(a, pos + 2, size);
    Put(a, pos + 4, BigEndian(handle, 8));
    Put(a, pos + 12, data);
    PatchAfter(old(a[..]), pos, head, size);
    PatchAfter(old(a[..]), pos, head + size, BigEndian(handle, 8));
    PatchAfter(old(a[..]), pos, head + size + BigEndian(handle, 8), data);
    assert EncodeSection(Move(handle, data)) == head + size + BigEndian(handle, 8) + data;
  }

  method PutSection(a: array<byte>, pos: nat, x: Section)
    requires pos + SizeOf(x) <= a.Length
    modifies a
    ensures a[..] == Patch(old(a[..]), pos, EncodeSection(x))
  {
    match x
    case Ping(v) => Numeral(a, pos, x, v);
    case PingEcho(v) => Numeral(a, pos, x, v);
    case MoveEcho(v) => Numeral(a, pos, x, v);
    case Edge(v) => Numeral(a, pos, x, v);
    case EdgeEcho(v) => Numeral(a, pos, x, v);
    case Move(h, d) => Snippet(a, pos, h, d);
    case _ => Simple(a, pos, x);
  }

  /** `section::stub`: clear the header of the next section, as far as the buffer reaches. */
  method PutStub(a: array<byte>, pos: nat)
    requires pos <= a.Length
    modifies a
    ensures a[..] == Patch(old(a[..]), pos, seq(Min(SECTION_HEADER, a.Length - pos), _ => 0))
  {
    Put(a, pos, seq(Min(SECTION_HEADER, a.Length - pos), _ => 0));
  }

  // ---------------------------------------------------------------- staged assembly

  /** A stub stands at `pos`, as far as the buffer reaches. */
  ghost predicate Cleared(buffer: seq<byte>, pos: nat) {
    forall k :: pos <= k < |buffer| && k < pos + SECTION_HEADER ==> buffer[k] == 0
  }

  /** The body holds exactly `xs`, and right after them the buffer ends or a stub stands. */
  ghost predicate Holds(buffer: seq<byte>, xs: seq<Section>) {
    && AllEncodable(xs)
    && HEADER + SizeOfAll(xs) <= |buffer|
    && buffer[HEADER..HEADER + SizeOfAll(xs)] == Encode(xs)
    && Type(buffer[HEADER + SizeOfAll(xs)..]) == 0
  }

  /** Where the search for the stub ends, or that a length field leads beyond the buffer, which raises an exception. */
  datatype Walk = Stopped(end: nat) | Overrun

  function Beyond(n: nat, w: Walk): Walk {
    if w.Overrun? then Overrun else Stopped(n + w.end)
  }

  /** `packet::stub` on the bytes of a body: step over whatever has a type, valid or not. */
  function StubWalk(view: seq<byte>): (w: Walk)
    ensures w.Stopped? ==> w.end <= |view|
    decreases |view|
  {
    if Type(view) == 0 then Stopped(0)
    else if SECTION_HEADER + Length(view) > |view| then Overrun
    else Beyond(SECTION_HEADER + Length(view), StubWalk(view[SECTION_HEADER + Length(view)..]))
  }

  /** The search passes over encoded sections and goes on with whatever follows them. */
  lemma {:induction false} WalkEncoded(xs: seq<Section>, rest: seq<byte>)
    requires AllEncodable(xs)
    ensures StubWalk(Encode(xs) + rest) == Beyond(SizeOfAll(xs), StubWalk(rest))
    decreases |xs|
  {
    hide Type, Length, EncodeSection, Encodable, Number, ByteOf, StubWalk;
    if xs == [] {
      assert Encode(xs) + rest == rest;
    } else {
      var more := Encode(xs[1..]) + rest;
      assert Encode(xs) + rest == EncodeSection(xs[0]) + more;
      WalkFirst(xs[0], more);
      WalkEncoded(xs[1..], rest);
    }
  }

  lemma WalkFirst(x: Section, more: seq<byte>)
    requires Encodable(x)
    ensures StubWalk(EncodeSection(x) + more) == Beyond(SizeOf(x), StubWalk(more))
  {
    hide Type, Length, EncodeSection, Encodable, Number, ByteOf;
    HeaderFields(x, more);
    var view := EncodeSection(x) + more;
    assert view[SizeOf(x)..] == more;
  }

  /** In a closed body the search ends right behind the sections. */
  lemma WalkHeld(buffer: seq<byte>, xs: seq<Section>)
    requires Holds(buffer, xs)
    ensures StubWalk(buffer[HEADER..]) == Stopped(SizeOfAll(xs))
  {
    hide Encode, Type, Number, ByteOf;
    var rest := buffer[HEADER + SizeOfAll(xs)..];
    assert buffer[HEADER..] == buffer[HEADER..HEADER + SizeOfAll(xs)] + rest;
    WalkEncoded(xs, rest);
  }

  /** `packet::stub`, and the size `trim` cuts the packet to. */
  method FindStub(a: array<byte>) returns (w: Walk)
    requires a.Length >= HEADER
    ensures w == StubWalk(a[..][HEADER..])
  {
    hide Type, Length, StubWalk;
    var view := a[..][HEADER..];
    var end: nat := 0;
    while Type(view) != 0
      invariant Beyond(end, StubWalk(view)) == StubWalk(a[..][HEADER..])
      decreases |view|
    {
      StubWalkUnfolds(view);
      if SECTION_HEADER + Length(view) > |view| {
        return Overrun;
      }
      end := end + SECTION_HEADER + Length(view);
      view := view[SECTION_HEADER + Length(view)..];
    }
    StubWalkUnfolds(view);
    w := Stopped(end);
  }

  lemma StubWalkUnfolds(view: seq<byte>)
    ensures StubWalk(view) ==
            if Type(view) == 0 then Stopped(0)
            else if SECTION_HEADER + Length(view) > |view| then Overrun
            else Beyond(SECTION_HEADER + Length(view), StubWalk(view[SECTION_HEADER + Length(view)..]))
  {
    hide Type, Length;
  }

  lemma EncodeSnoc(done: seq<Section>, x: Section)
    ensures Encode(done + [x]) == Encode(done) + EncodeSection(x)
    ensures SizeOfAll(done + [x]) == SizeOfAll(done) + SizeOf(x)
  {
    hide EncodeSection, BigEndian;
    EncodeAppend(done, [x]);
    SizeOfAllAppend(done, [x]);
    assert Encode([x]) == EncodeSection(x) + Encode([]);
  }

  /** Write sections one behind the other; what lies behind the last one stays. */
  method Sections(a: array<byte>, from: nat, xs: seq<Section>, ghost before: seq<Section>) returns (pos: nat)
    requires AllEncodable(xs) && from == HEADER + SizeOfAll(before) && from + SizeOfAll(xs) <= a.Length
    requires a[..][HEADER..from] == Encode(before)
    modifies a
    ensures pos == from + SizeOfAll(xs) == HEADER + SizeOfAll(before + xs)
    ensures a[..][..HEADER] == old(a[..])[..HEADER]
    ensures a[..][HEADER..pos] == Encode(before + xs)
    ensures a[..][pos..] == old(a[..])[pos..]
  {
    hide Encode, Stride, EncodeSection, Encodable;
    pos := from;
    ghost var done := before;
    var rest := xs;
    ghost var was := a[..];
    assert before + xs == done + rest;
    SizeOfAllAppend(before, xs);
    while rest != []
      invariant done + rest == before + xs && AllEncodable(rest)
      invariant pos == HEADER + SizeOfAll(done) && pos + SizeOfAll(rest) == from + SizeOfAll(xs)
      invariant a[..][HEADER..pos] == Encode(done)
      invariant a[..][..HEADER] == was[..HEADER] && a[..][pos..] == was[pos..]
      decreases |rest|
    {
      Regroup(done, rest);
      ghost var mid := a[..];
      PutOne(a, pos, rest[0], done);
      SameTail(a[..], mid, was, pos, SizeOf(rest[0]));
      done := done + [rest[0]];
      pos := pos + Stride(a[..][pos..]);
      rest := rest[1..];
    }
    assert done == before + xs;
  }

  lemma Regroup(done: seq<Section>, rest: seq<Section>)
    requires rest != []
    ensures done + rest == (done + [rest[0]]) + rest[1..]
    ensures SizeOfAll(rest) == SizeOf(rest[0]) + SizeOfAll(rest[1..])
    ensures AllEncodable(rest) ==> Encodable(rest[0]) && AllEncodable(rest[1..])
  {
  }

  lemma SameTail(now: seq<byte>, mid: seq<byte>, was: seq<byte>, pos: nat, n: nat)
    requires pos + n <= |now| == |mid| == |was| && now[pos + n..] == mid[pos + n..] && mid[pos..] == was[pos..]
    ensures now[pos + n..] == was[pos + n..]
  {
    assert mid[pos..][n..] == mid[pos + n..];
    assert was[pos..][n..] == was[pos + n..];
  }

  /** One `imbue` pass: append sections after the stub, then close the body with a stub of its own. */
  method Pass(a: array<byte>, ghost before: seq<Section>, xs: seq<Section>)
    requires Holds(a[..], before) && AllEncodable(xs)
    requires HEADER + SizeOfAll(before) + SizeOfAll(xs) <= a.Length
    modifies a
    ensures Holds(a[..], before + xs)
    ensures a[..][..HEADER] == old(a[..])[..HEADER]
    ensures Cleared(a[..], HEADER + SizeOfAll(before + xs))
    ensures forall k :: HEADER + SizeOfAll(before + xs) + SECTION_HEADER <= k < a.Length ==> a[k] == old(a[k])
  {
    hide Encode, Stride, Type, EncodeSection, Encodable, StubWalk, SizeOfAll;
    WalkHeld(a[..], before);
    var w := FindStub(a);
    ghost var was := a[..];
    var pos := Sections(a, HEADER + w.end, xs, before);
    ghost var mid := a[..];
    Close(a, pos);
    forall k | pos + SECTION_HEADER <= k < a.Length ensures a[k] == was[k] {
      assert a[k] == mid[k] == mid[pos..][k - pos] == was[pos..][k - pos];
    }
  }

  /** The sender's pass on its early return: sections, but no stub behind them. */
  method OpenPass(a: array<byte>, ghost before: seq<Section>, xs: seq<Section>)
    requires Holds(a[..], before) && AllEncodable(xs)
    requires HEADER + SizeOfAll(before) + SizeOfAll(xs) <= a.Length
    modifies a
    ensures var end := HEADER + SizeOfAll(before + xs);
            && end <= a.Length
            && a[..][..HEADER] == old(a[..])[..HEADER]
            && a[..][HEADER..end] == Encode(before + xs)
            && a[..][end..] == old(a[..])[end..]
  {
    hide Encode, Encodable, StubWalk, SizeOfAll, Type;
    WalkHeld(a[..], before);
    var w := FindStub(a);
    var pos := Sections(a, HEADER + w.end, xs, before);
  }

  /** Write the closing stub without touching what stands before it. */
  method Close(a: array<byte>, pos: nat)
    requires HEADER <= pos <= a.Length
    modifies a
    ensures a[..][..pos] == old(a[..])[..pos]
    ensures a[..][..HEADER] == old(a[..])[..HEADER] && a[..][HEADER..pos] == old(a[..])[HEADER..pos]
    ensures Type(a[..][pos..]) == 0 && Cleared(a[..], pos)
    ensures forall k :: pos + SECTION_HEADER <= k < a.Length ==> a[k] == old(a[k])
  {
    PutStub(a, pos);
    StubHolds(a[..], pos);
    assert a[..][HEADER..pos] == a[..][..pos][HEADER..];
    assert old(a[..])[HEADER..pos] == old(a[..])[..pos][HEADER..];
  }

  /** A section written at the end of the body can be walked over like any other. */
  method PutOne(a: array<byte>, pos: nat, x: Section, ghost done: seq<Section>)
    requires Encodable(x) && pos + SizeOf(x) <= a.Length && pos == HEADER + SizeOfAll(done)
    requires a[..][HEADER..pos] == Encode(done)
    modifies a
    ensures a[..][..HEADER] == old(a[..])[..HEADER]
    ensures Stride(a[..][pos..]) == SizeOf(x)
    ensures pos + SizeOf(x) == HEADER + SizeOfAll(done + [x])
    ensures a[..][HEADER..pos + SizeOf(x)] == Encode(done + [x])
    ensures a[..][pos + SizeOf(x)..] == old(a[..])[pos + SizeOf(x)..]
  {
    hide Patch, Encode, EncodeSection, Stride, SizeOfAll, Encodable;
    PutSection(a, pos, x);
    PatchedBody(old(a[..]), pos, x, done);
  }

  lemma PatchedBody(buffer: seq<byte>, pos: nat, x: Section, done: seq<Section>)
    requires Encodable(x) && pos + SizeOf(x) <= |buffer| && pos == HEADER + SizeOfAll(done)
    requires buffer[HEADER..pos] == Encode(done)
    ensures var b := Patch(buffer, pos, EncodeSection(x));
            && b[..HEADER] == buffer[..HEADER]
            && Stride(b[pos..]) == SizeOf(x)
            && pos + SizeOf(x) == HEADER + SizeOfAll(done + [x])
            && b[HEADER..pos + SizeOf(x)] == Encode(done + [x])
            && b[pos + SizeOf(x)..] == buffer[pos + SizeOf(x)..]
  {
    hide Patch, Encode, EncodeSection, Valid, Short, Front, Stride, SizeOfAll, SizeOf, Encodable;
    var e := EncodeSection(x);
    var after := buffer[pos + SizeOf(x)..];
    EncodeSnoc(done, x);
    FrontRoundTrip(x, after);
    PatchSlices(buffer, pos, e, HEADER);
  }

  lemma PatchSlices(buffer: seq<byte>, pos: nat, s: seq<byte>, k: nat)
    requires k <= pos && pos + |s| <= |buffer|
    ensures var b := Patch(buffer, pos, s);
            && b[..k] == buffer[..k] && b[pos..] == s + buffer[pos + |s|..] && b[k..pos + |s|] == buffer[k..pos] + s
            && b[pos + |s|..] == buffer[pos + |s|..]
  {
  }

  lemma StubHolds(buffer: seq<byte>, pos: nat)
    requires pos <= |buffer| && Cleared(buffer, pos)
    ensures Type(buffer[pos..]) == 0
  {
    var s := buffer[pos..];
    if |s| >= SECTION_HEADER {
      ByteRoundTrip(0);
      var two := s[..2];
      assert two[..1][..0] == [];
      assert Number(two[..1]) == 0;
    }
  }

  /** The header the connector writes: no salt, signature, version, pin, and a stub as body. */
  method PutHeader(a: array<byte>, pin: nat)
    requires a.Length >= HEADER + SECTION_HEADER
    modifies a
    ensures a[..][..HEADER] == Header(pin)
    ensures Holds(a[..], [])
    ensures forall k :: HEADER + SECTION_HEADER <= k < a.Length ==> a[k] == old(a[k])
  {
    hide Header, BigEndian, ByteOf, NatOf, Number;
    Put(a, 0, Header(pin));
    assert a[..][..HEADER] == Header(pin);
    Put(a, HEADER, [0, 0, 0, 0]);
    StubHolds(a[..], HEADER);
    assert Encode([]) == [];
  }

  function Header(pin: nat): (s: seq<byte>)
    ensures |s| == HEADER
  {
    BigEndian(0, 8) + BigEndian(SIGN, 2) + BigEndian(VERSION, 2) + BigEndian(pin, 4)
  }

  /** The buffer when all passes have closed the body: behind the last stub it is what it was. */
  function Closed(buffer: seq<byte>, pin: nat, xs: seq<Section>): (s: seq<byte>)
    requires HEADER + SizeOfAll(xs) <= |buffer|
    ensures |s| == |buffer|
  {
    var end := HEADER + SizeOfAll(xs);
    var n := Min(SECTION_HEADER, |buffer| - end);
    Header(pin) + Encode(xs) + seq(n, _ => 0) + buffer[end + n..]
  }

  /** `produce`: the three passes over one reused buffer, then `trim`. */
  method Assemble(a: array<byte>, pin: nat, first: seq<Section>, second: seq<Section>, third: seq<Section>) returns (size: nat)
    requires AllEncodable(first) && AllEncodable(second) && AllEncodable(third)
    requires a.Length >= HEADER + SECTION_HEADER
    requires HEADER + SizeOfAll(first) + SizeOfAll(second) + SizeOfAll(third) <= a.Length
    modifies a
    ensures size <= a.Length && a[..size] == Header(pin) + Encode(first + second + third)
    ensures HEADER + SizeOfAll(first + second + third) <= a.Length
    ensures a[..] == Closed(old(a[..]), pin, first + second + third)
  {
    hide Header, BigEndian, ByteOf, NatOf, Encode, Encodable, StubWalk;
    SizeOfAllAppend(first, second);
    SizeOfAllAppend(first + second, third);
    ghost var was := a[..];
    PutHeader(a, pin);
    Pass(a, [], first);
    assert [] + first == first;
    Pass(a, first, second);
    Pass(a, first + second, third);
    ClosedBody(was, a[..], pin, first + second + third);
    WalkHeld(a[..], first + second + third);
    var w := FindStub(a);
    size := HEADER + w.end;
    assert a[..size] == a[..][..HEADER] + a[..][HEADER..size];
  }

  lemma ClosedBody(was: seq<byte>, now: seq<byte>, pin: nat, xs: seq<Section>)
    requires HEADER + SizeOfAll(xs) <= |was| == |now| && now[..HEADER] == Header(pin)
    requires now[HEADER..HEADER + SizeOfAll(xs)] == Encode(xs) && Cleared(now, HEADER + SizeOfAll(xs))
    requires forall k :: HEADER + SizeOfAll(xs) + SECTION_HEADER <= k < |was| ==> now[k] == was[k]
    ensures now == Closed(was, pin, xs)
  {
    hide Header, Encode, SizeOfAll;
    var end := HEADER + SizeOfAll(xs);
    var n := Min(SECTION_HEADER, |was| - end);
    assert now[end..end + n] == seq(n, _ => 0);
    assert now[end + n..] == was[end + n..];
    assert now == now[..HEADER] + now[HEADER..end] + now[end..end + n] + now[end + n..];
  }

  /** The buffer when the third pass returned early: its sections end in whatever the buffer held before. */
  function Draft(buffer: seq<byte>, pin: nat, xs: seq<Section>): (s: seq<byte>)
    requires HEADER + SizeOfAll(xs) <= |buffer|
    ensures |s| == |buffer|
  {
    Header(pin) + Encode(xs) + buffer[HEADER + SizeOfAll(xs)..]
  }

  /** The same when the third pass returned early after it had written something: no stub stands behind it. */
  method AssembleOpen(a: array<byte>, pin: nat, first: seq<Section>, second: seq<Section>, third: seq<Section>) returns (w: Walk)
    requires AllEncodable(first) && AllEncodable(second) && AllEncodable(third) && third != []
    requires a.Length >= HEADER + SECTION_HEADER
    requires HEADER + SizeOfAll(first) + SizeOfAll(second) + SizeOfAll(third) <= a.Length
    modifies a
    ensures var xs := first + second + third;
            && HEADER + SizeOfAll(xs) <= a.Length
            && a[..] == Draft(old(a[..]), pin, xs)
            && w == StubWalk(a[..][HEADER..])
  {
    hide Header, BigEndian, ByteOf, NatOf, Encode, Encodable, StubWalk;
    SizeOfAllAppend(first, second);
    SizeOfAllAppend(first + second, third);
    ghost var was := a[..];
    PutHeader(a, pin);
    Pass(a, [], first);
    assert [] + first == first;
    Pass(a, first, second);
    ghost var mid := a[..];
    OpenPass(a, first + second, third);
    w := FindStub(a);
    ghost var end := HEADER + SizeOfAll(first + second + third);
    assert end >= HEADER + SizeOfAll(first + second) + SECTION_HEADER;
    assert mid[end..] == was[end..];
    assert a[..] == a[..][..HEADER] + a[..][HEADER..end] + a[..][end..];
  }

  // ---------------------------------------------------------------- the receiving side

  function SignOf(s: seq<byte>): nat requires |s| >= HEADER { Number(s[8..10]) }

  function VersionOf(s: seq<byte>): nat requires |s| >= HEADER { Number(s[10..12]) }

  function PinOf(s: seq<byte>): nat requires |s| >= HEADER { Number(s[12..16]) }

  /** The parsing loop over the body of a received packet. */
  method ReadBody(s: seq<byte>) returns (b: Body)
    requires |s| >= HEADER
    ensures b == ParseBody(s[HEADER..])
  {
    hide Valid, Short, Front, Stride, Followed;
    b := NOTHING;
    var view := s[HEADER..];
    FollowedTwice(NOTHING, NOTHING, ParseBody(view));
    while Valid(view)
      invariant Followed(b, ParseBody(view)) == ParseBody(s[HEADER..])
      decreases |view|
    {
      StrideMoves(view);
      FollowedTwice(b, FrontBody(view), ParseBody(view[Stride(view)..]));
      b := Followed(b, FrontBody(view));
      view := view[Stride(view)..];
    }
    FollowedTwice(NOTHING, NOTHING, b);
  }

  lemma StrideMoves(s: seq<byte>)
    requires Valid(s)
    ensures 0 < Stride(s) <= |s|
  {
  }

  /**
   * Whatever the reused buffer held before, a packet assembled in three passes is read back as its pin and
   * exactly the three section lists one after the other.
   */
  lemma PacketRoundTrip(pin: nat, first: seq<Section>, second: seq<Section>, third: seq<Section>)
    requires AllEncodable(first) && AllEncodable(second) && AllEncodable(third) && pin < 0x1_0000_0000
    ensures var s := Header(pin) + Encode(first + second + third);
            && SignOf(s) == SIGN && VersionOf(s) == VERSION && PinOf(s) == pin
            && ParseBody(s[HEADER..]) == Body(first + second + third, Flawless)
  {
    hide Number, BigEndian, ByteOf, Header, ParseBody, Encode, SignOf, VersionOf, PinOf, Encodable;
    var xs := first + second + third;
    HeaderFacts(pin, Encode(xs));
    ParseEncoded(xs, []);
    var s := Header(pin) + Encode(xs);
    assert s[HEADER..] == Encode(xs) + [];
    FollowedTwice(NOTHING, NOTHING, Body(xs, Flawless));
  }

  lemma HeaderFacts(pin: nat, body: seq<byte>)
    requires pin < 0x1_0000_0000
    ensures var s := Header(pin) + body; SignOf(s) == SIGN && VersionOf(s) == VERSION && PinOf(s) == pin
    ensures ParseBody([]) == NOTHING
  {
    hide Number, BigEndian, ByteOf, NatOf, Pow256;
    var s := Header(pin) + body;
    Widths();
    NumberRoundTrip(SIGN, 2);
    NumberRoundTrip(VERSION, 2);
    NumberRoundTrip(pin, 4);
    assert s[8..10] == BigEndian(SIGN, 2);
    assert s[10..12] == BigEndian(VERSION, 2);
    assert s[12..16] == BigEndian(pin, 4);
  }

  /**
   * A sender's pass that returns after writing sections leaves the body open, and `trim` walks on into the stale
   * bytes behind it. What happens is decided by that walk: it may leave the buffer, and then no packet is sent;
   * otherwise the receiver reads the written sections and whatever stands in the bytes walked over, be it whole
   * sections or a move section too short for its handle. The packet goes out and reads back as exactly the written
   * sections if and only if the walk stays inside the buffer and nothing valid stands at the start of those bytes.
   */
  lemma UnclosedBody(xs: seq<Section>, stale: seq<byte>)
    requires AllEncodable(xs)
    ensures var body := Encode(xs) + stale;
            var w := StubWalk(body);
            var v := StubWalk(stale);
            && w == Beyond(SizeOfAll(xs), v)
            && (w.Stopped? ==> ParseBody(body[..w.end]) == Followed(Body(xs, Flawless), ParseBody(stale[..v.end])))
            && (w.Stopped? && ParseBody(body[..w.end]) == Body(xs, Flawless) <==> v.Stopped? && !Valid(stale[..v.end]))
  {
    hide StubWalk, Valid, Short, Front, Stride, Encode;
    var body := Encode(xs) + stale;
    WalkEncoded(xs, stale);
    if StubWalk(stale).Stopped? {
      var n := StubWalk(stale).end;
      assert body[..SizeOfAll(xs) + n] == Encode(xs) + stale[..n];
      ParseEncoded(xs, stale[..n]);
      FollowedTwice(NOTHING, NOTHING, Body(xs, Flawless));
      SomethingRead(stale[..n]);
    }
  }

  /** A body that starts with something valid has a section or a flaw. */
  lemma SomethingRead(s: seq<byte>)
    ensures ParseBody(s) == NOTHING <==> !Valid(s)
    ensures ParseBody(s).sections == [] && ParseBody(s).flaw == Flawless ==> !Valid(s)
  {
    hide Valid, Short, Front, Stride;
  }

  /**
   * Stale bytes over which the search passes although `valid` accepts them: a move section with four bytes for a
   * handle, then a link request. The walk stops behind both, and the receiver comes to the short section first.
   */
  lemma ShortMoveStands(d: seq<byte>)
    requires |d| == 4
    ensures var stale := BigEndian(8, 2) + BigEndian(4, 2) + d + EncodeSection(Link) + [0, 0, 0, 0];
            && StubWalk(stale) == Stopped(12)
            && ParseBody(stale[..12]) == Body([Link], ShortAfter(0))
  {
    hide Number, BigEndian, Pow256, ByteOf, NatOf, EncodeSection, StubWalk, ParseBody;
    var two := EncodeSection(Link);
    var stale := BigEndian(8, 2) + BigEndian(4, 2) + d + two + [0, 0, 0, 0];
    Widths();
    NumberRoundTrip(8, 2);
    NumberRoundTrip(4, 2);
    StubHolds([0, 0, 0, 0], 0);
    assert [0, 0, 0, 0][0..] == [0, 0, 0, 0];
    WalkFirst(Link, [0, 0, 0, 0]);
    ShortFront(stale, two + [0, 0, 0, 0]);
    StubWalkUnfolds(stale);
    StubWalkUnfolds([0, 0, 0, 0]);
    assert stale[..12] == BigEndian(8, 2) + BigEndian(4, 2) + d + (two + []);
    ShortFront(stale[..12], two + []);
    ParseFirst(Link, []);
    StubEnds([]);
    ParseUnfolds(stale[..12]);
  }

  lemma ShortFront(s: seq<byte>, rest: seq<byte>)
    requires |s| >= 12 && s[..2] == BigEndian(8, 2) && s[2..4] == BigEndian(4, 2) && s[8..] == rest
    ensures Type(s) == 8 && Length(s) == 4 && Valid(s) && Short(s) && Stride(s) == 8 && s[Stride(s)..] == rest
    ensures s[SECTION_HEADER + Length(s)..] == rest
  {
    hide Number, BigEndian, Pow256;
    Widths();
    NumberRoundTrip(8, 2);
    NumberRoundTrip(4, 2);
  }

  lemma ParseUnfolds(s: seq<byte>)
    ensures ParseBody(s) == if !Valid(s) then NOTHING else Followed(FrontBody(s), ParseBody(s[Stride(s)..]))
  {
    hide Valid, Short, Front, Stride, Followed;
  }

  /** A pass that returned before writing anything leaves the stub of the pass before it: the body is closed. */
  lemma NothingWritten(buffer: seq<byte>, xs: seq<Section>)
    requires Holds(buffer, xs)
    ensures StubWalk(buffer[HEADER..]) == Stopped(SizeOfAll(xs))
    ensures ParseBody(buffer[HEADER..][..SizeOfAll(xs)]) == Body(xs, Flawless)
  {
    hide StubWalk, Encode, Number;
    WalkHeld(buffer, xs);
    ParseEncoded(xs, []);
    assert buffer[HEADER..][..SizeOfAll(xs)] == buffer[HEADER..HEADER + SizeOfAll(xs)] == Encode(xs) + [];
    StubEnds([]);
    FollowedTwice(NOTHING, NOTHING, Body(xs, Flawless));
  }
}
