/** The obfuscated byte stream over TCP: a keystream that survives any chunking of writes and reads. */
module TcpStream {
  import opened Protocol
  import opened Containers
  import opened Keystream

  const HEAD_SIZE: nat := 16
  const SIGNATURE: bv64 := 0x09090001

  /** One direction of the cipher. `salt` 0 means that no header has been exchanged. */
  datatype Cipher = Cipher(salt: bv64, inverter: bv64, shift: nat)

  /** A direction on which nothing has been exchanged. */
  const IDLE: Cipher := Cipher(0, 0, 0)

  /** The cipher after p bytes: the word in use is number ceil(p / 8), `shift` bytes of it are spent. */
  ghost predicate CipherAt(host: Host, secret: bv64, c: Cipher, p: nat) {
    && c.shift == p % 8
    && c.inverter == Key(host, secret, c.salt, (p + 7) / 8)
  }

  /** Data bytes use the keystream from word 1 on; word 0 masks the signature. */
  function Masked(host: Host, secret: bv64, salt: bv64, p: nat, s: seq<byte>): seq<byte> {
    Mask(host, secret, salt, 1, p, s)
  }

  // ---------------------------------------------------------------- a byte at a time

  /** `alter_data` on one byte: spend a byte of the word in use, or draw the next word. */
  function NextByte(host: Host, c: Cipher, b: byte, dim: bool): (Cipher, byte)
    requires c.shift < 8
  {
    if c.shift > 0 then (c.(shift := (c.shift + 1) % 8), Xor(b, MemByte(host, c.inverter, c.shift)))
    else
      var w := MakeInverter(host, c.inverter, c.salt, dim);
      (c.(inverter := w, shift := 1), Xor(b, MemByte(host, w, 0)))
  }

  /** The reference for `alter_data`: one byte after the other. */
  function Altered(host: Host, c: Cipher, s: seq<byte>, dim: bool): (r: (Cipher, seq<byte>))
    requires c.shift < 8
    ensures r.0.shift < 8 && r.0.salt == c.salt && |r.1| == |s|
    decreases |s|
  {
    if s == [] then (c, [])
    else
      var (d, b) := NextByte(host, c, s[0], dim);
      var (e, t) := Altered(host, d, s[1..], dim);
      (e, [b] + t)
  }

  // ---------------------------------------------------------------- alter_data

  /**
   * Half-way through a buffer that held `was`: the bytes before `ptr` are done, the others untouched, and what is
   * left to do from state `c` completes what the reference makes of the whole.
   */
  ghost predicate Doing(host: Host, whole: (Cipher, seq<byte>), was: seq<byte>, dim: bool, c: Cipher, now: seq<byte>, ptr: nat) {
    && ptr <= |was| == |now|
    && c.shift < 8
    && now[ptr..] == was[ptr..]
    && whole.0 == Altered(host, c, was[ptr..], dim).0
    && whole.1 == now[..ptr] + Altered(host, c, was[ptr..], dim).1
  }

  lemma ByteDone(host: Host, whole: (Cipher, seq<byte>), was: seq<byte>, dim: bool, c: Cipher, now: seq<byte>, after: seq<byte>, ptr: nat)
    requires Doing(host, whole, was, dim, c, now, ptr) && ptr < |was|
    requires after == now[ptr := NextByte(host, c, now[ptr], dim).1]
    ensures Doing(host, whole, was, dim, NextByte(host, c, now[ptr], dim).0, after, ptr + 1)
  {
    hide MakeInverter, MemByte, Xor;
    assert now[ptr] == now[ptr..][0] == was[ptr..][0] == was[ptr];
    assert was[ptr..][1..] == was[ptr + 1..];
    assert after[ptr + 1..] == now[ptr..][1..];
    var (d, b) := NextByte(host, c, was[ptr], dim);
    var rest := Altered(host, d, was[ptr + 1..], dim).1;
    assert now[..ptr] + ([b] + rest) == after[..ptr + 1] + rest;
  }

  /** Inside a word, the next byte is the next byte of the word. */
  lemma InsideWord(host: Host, c: Cipher, b: byte, dim: bool)
    requires 0 < c.shift < 8
    ensures NextByte(host, c, b, dim) == (c.(shift := (c.shift + 1) % 8), Xor(b, MemByte(host, c.inverter, c.shift)))
  {
    hide MakeInverter, MemByte, Xor;
  }

  /** At the end of a word, the next byte is the first of a new one. */
  lemma NewWord(host: Host, c: Cipher, b: byte, dim: bool)
    requires c.shift == 0
    ensures var w := MakeInverter(host, c.inverter, c.salt, dim);
            NextByte(host, c, b, dim) == (Cipher(c.salt, w, 1), Xor(b, MemByte(host, w, 0)))
  {
    hide MakeInverter, MemByte, Xor;
  }

  /** After `n` bytes of the word that follows state c. */
  function InWord(host: Host, c: Cipher, dim: bool, n: nat): Cipher
    requires n <= 8
  {
    if n == 0 then c else Cipher(c.salt, MakeInverter(host, c.inverter, c.salt, dim), n % 8)
  }

  /** The first n bytes of a word XORed in one go are n single bytes done. */
  lemma {:induction false} WordDone(host: Host, whole: (Cipher, seq<byte>), was: seq<byte>, dim: bool, c: Cipher, now: seq<byte>,
                                    after: seq<byte>, ptr: nat, n: nat)
    requires Doing(host, whole, was, dim, c, now, ptr) && c.shift == 0 && n <= 8 && ptr + n <= |was| == |after|
    requires forall i :: 0 <= i < n ==>
               after[ptr + i] == Xor(now[ptr + i], MemByte(host, MakeInverter(host, c.inverter, c.salt, dim), i))
    requires after[..ptr] == now[..ptr] && after[ptr + n..] == now[ptr + n..]
    ensures Doing(host, whole, was, dim, InWord(host, c, dim, n), after, ptr + n)
    decreases n
  {
    hide MakeInverter, MemByte, Xor, Doing, NextByte, Altered;
    SameLength(host, whole, was, dim, c, now, ptr);
    if n == 0 {
      assert after == after[..ptr] + after[ptr..];
      assert now == now[..ptr] + now[ptr..];
    } else {
      var at := ptr + n - 1;
      assert at == ptr + (n - 1);
      var mid := after[at := now[at]];
      assert mid[at..] == [now[at]] + after[at + 1..];
      assert now[at..] == [now[at]] + now[at + 1..];
      assert mid[..ptr] == after[..ptr];
      WordDone(host, whole, was, dim, c, now, mid, ptr, n - 1);
      var d := InWord(host, c, dim, n - 1);
      if n == 1 {
        NewWord(host, d, mid[at], dim);
      } else {
        InsideWord(host, d, mid[at], dim);
      }
      assert after == mid[at := after[at]];
      ByteDone(host, whole, was, dim, d, mid, after, at);
    }
  }

  lemma Begun(host: Host, c: Cipher, s: seq<byte>, dim: bool)
    requires c.shift < 8
    ensures Doing(host, Altered(host, c, s, dim), s, dim, c, s, 0)
  {
    assert s[0..] == s;
  }

  lemma Ended(host: Host, whole: (Cipher, seq<byte>), was: seq<byte>, dim: bool, c: Cipher, now: seq<byte>)
    requires Doing(host, whole, was, dim, c, now, |was|)
    ensures whole == (c, now)
  {
    assert was[|was|..] == [];
    assert now[..|was|] + [] == now;
  }

  /**
   * `alter_data`: finish the word in use, then whole words, then the head of one more word. From any state, the
   * result is that of one byte after the other.
   */
  method AlterData(host: Host, c: Cipher, a: array<byte>, dim: bool) returns (d: Cipher)
    requires c.shift < 8
    modifies a
    ensures (d, a[..]) == Altered(host, c, old(a[..]), dim)
  {
    hide MemByte, MakeInverter, Xor, Doing, NextByte;
    ghost var was := a[..];
    ghost var whole := Altered(host, c, was, dim);
    Begun(host, c, was, dim);
    var ptr;
    d, ptr := FinishWord(host, c, a, dim, whole, was);
    if ptr < a.Length {
      ghost var at;
      d, ptr, at := WholeWords(host, d, a, dim, ptr, whole, was);
      d := PartialWord(host, d, a, dim, ptr, at, whole, was);
    }
    Ended(host, whole, was, dim, d, a[..]);
  }

  /** The bytes left of the word in use; afterwards the buffer or the word is used up. */
  method FinishWord(host: Host, c: Cipher, a: array<byte>, ghost dim: bool, ghost whole: (Cipher, seq<byte>), ghost was: seq<byte>)
    returns (d: Cipher, ptr: nat)
    requires c.shift < 8 && Doing(host, whole, was, dim, c, a[..], 0)
    modifies a
    ensures Doing(host, whole, was, dim, d, a[..], ptr)
    ensures ptr <= a.Length && (ptr < a.Length ==> d.shift == 0)
  {
    hide MemByte, MakeInverter, Xor, Doing, NextByte;
    var shift := c.shift;
    ptr := 0;
    if shift > 0 {
      while shift < 8 && ptr < a.Length
        invariant 0 < shift <= 8 && ptr <= a.Length
        invariant Doing(host, whole, was, dim, c.(shift := shift % 8), a[..], ptr)
      {
        ghost var before := a[..];
        InsideWord(host, c.(shift := shift), a[ptr], dim);
        a[ptr] := Xor(a[ptr], MemByte(host, c.inverter, shift));
        SameLength(host, whole, was, dim, c.(shift := shift), before, ptr);
        ByteDone(host, whole, was, dim, c.(shift := shift), before, a[..], ptr);
        ptr := ptr + 1;
        shift := shift + 1;
      }
      if shift == 8 {
        shift := 0;
      }
    }
    d := c.(shift := shift);
  }

  lemma SameLength(host: Host, whole: (Cipher, seq<byte>), was: seq<byte>, dim: bool, c: Cipher, now: seq<byte>, ptr: nat)
    requires Doing(host, whole, was, dim, c, now, ptr)
    ensures |was| == |now|
  {
  }

  /** Whole words; the generator moves on before a word and, if bytes remain, after it. */
  method WholeWords(host: Host, c: Cipher, a: array<byte>, dim: bool, from: nat, ghost whole: (Cipher, seq<byte>), ghost was: seq<byte>)
    returns (d: Cipher, ptr: nat, ghost at: Cipher)
    requires from < a.Length && c.shift == 0 && Doing(host, whole, was, dim, c, a[..], from)
    modifies a
    ensures ptr <= a.Length < ptr + 8 && Doing(host, whole, was, dim, at, a[..], ptr)
    ensures at.shift == 0 && d == Drawn(host, at, dim, ptr < a.Length)
  {
    hide MemByte, MakeInverter, Xor, Doing;
    ptr, at := from, c;
    var inverter := MakeInverter(host, c.inverter, c.salt, dim);
    while ptr + 8 <= a.Length
      invariant from <= ptr <= a.Length && at.shift == 0 && at.salt == c.salt
      invariant Cipher(c.salt, inverter, 0) == Drawn(host, at, dim, ptr < a.Length)
      invariant Doing(host, whole, was, dim, at, a[..], ptr)
    {
      ghost var before := a[..];
      XorWord(a, ptr, host, inverter);
      SameLength(host, whole, was, dim, at, before, ptr);
      assert a[..][..ptr] == before[..ptr] && a[..][ptr + 8..] == before[ptr + 8..];
      WordDone(host, whole, was, dim, at, before, a[..], ptr, 8);
      at := InWord(host, at, dim, 8);
      ptr := ptr + 8;
      if ptr < a.Length {
        inverter := MakeInverter(host, inverter, c.salt, dim);
      }
    }
    d := Cipher(c.salt, inverter, 0);
  }

  /** The state at the end of a word, or the same with the next word already drawn. */
  function Drawn(host: Host, at: Cipher, dim: bool, ahead: bool): Cipher {
    if ahead then Cipher(at.salt, MakeInverter(host, at.inverter, at.salt, dim), 0) else at
  }

  /** The first bytes of a further word. */
  method PartialWord(host: Host, c: Cipher, a: array<byte>, ghost dim: bool, from: nat, ghost at: Cipher,
                     ghost whole: (Cipher, seq<byte>), ghost was: seq<byte>)
    returns (d: Cipher)
    requires from <= a.Length < from + 8 && Doing(host, whole, was, dim, at, a[..], from)
    requires at.shift == 0 && c == Drawn(host, at, dim, from < a.Length)
    modifies a
    ensures Doing(host, whole, was, dim, d, a[..], a.Length)
  {
    hide MemByte, MakeInverter, Xor, Doing, NextByte;
    var ptr, shift := from, 0;
    while ptr < a.Length
      invariant from <= ptr <= a.Length && shift == ptr - from < 8
      invariant Doing(host, whole, was, dim, if ptr == from then at else c.(shift := shift), a[..], ptr)
    {
      ghost var before := a[..];
      ghost var e := if ptr == from then at else c.(shift := shift);
      if ptr == from {
        NewWord(host, e, a[ptr], dim);
      } else {
        InsideWord(host, e, a[ptr], dim);
      }
      a[ptr] := Xor(a[ptr], MemByte(host, c.inverter, shift));
      SameLength(host, whole, was, dim, e, before, ptr);
      ByteDone(host, whole, was, dim, e, before, a[..], ptr);
      ptr := ptr + 1;
      shift := shift + 1;
    }
    d := c.(shift := shift);
  }

  // ---------------------------------------------------------------- the header

  /** The 16 bytes `write_head` puts before the first data. */
  function Head(host: Host, secret: bv64, salt: bv64): (s: seq<byte>)
    ensures |s| == HEAD_SIZE
  {
    Store(host, ToBig(host, XorWords(salt, secret)))
    + Store(host, ToBig(host, XorWords(SIGNATURE, Key(host, secret, salt, 0))))
  }

  /** The salt and the signature `read_head` finds. */
  function HeadSalt(host: Host, secret: bv64, s: seq<byte>): bv64
    requires |s| == HEAD_SIZE
  {
    XorWords(FromBig(host, Load(host, s[..8])), secret)
  }

  function HeadSign(host: Host, secret: bv64, s: seq<byte>): bv64
    requires |s| == HEAD_SIZE
  {
    XorWords(FromBig(host, Load(host, s[8..])), MakeInverter(host, secret, HeadSalt(host, secret, s), false))
  }

  lemma HeadRoundTrip(host: Host, secret: bv64, salt: bv64)
    ensures HeadSalt(host, secret, Head(host, secret, salt)) == salt
    ensures HeadSign(host, secret, Head(host, secret, salt)) == SIGNATURE
  {
    hide Load, Store, ToBig, FromBig, XorWords, Key, MakeInverter;
    var h := Head(host, secret, salt);
    var x := XorWords(salt, secret);
    var y := XorWords(SIGNATURE, Key(host, secret, salt, 0));
    assert h[..8] == Store(host, ToBig(host, x)) && h[8..] == Store(host, ToBig(host, y));
    LoadStore(host, ToBig(host, x));
    LoadStore(host, ToBig(host, y));
    BigRoundTrip(host, x);
    BigRoundTrip(host, y);
    WordXorTwice(salt, secret);
    WordXorTwice(SIGNATURE, Key(host, secret, salt, 0));
    NextKey(host, secret, salt, 0, false);
  }

  // ---------------------------------------------------------------- the keystream by position

  lemma NextByteMasks(host: Host, secret: bv64, c: Cipher, b: byte, dim: bool, p: nat)
    requires CipherAt(host, secret, c, p)
    ensures var r := NextByte(host, c, b, dim);
            CipherAt(host, secret, r.0, p + 1) && r.1 == Xor(b, KeyByte(host, secret, c.salt, 1, p))
  {
    hide Key, MakeInverter, MemByte, Xor;
    NextKey(host, secret, c.salt, p / 8, dim);
    Positions(p);
  }

  lemma Positions(p: nat)
    ensures p % 8 == 0 ==> (p + 7) / 8 == p / 8 && (p + 8) / 8 == p / 8 + 1 && (p + 1) % 8 == 1
    ensures p % 8 > 0 ==> (p + 7) / 8 == p / 8 + 1 == (p + 8) / 8 && (p + 1) % 8 == (p % 8 + 1) % 8
  {
  }

  lemma ShiftFits(host: Host, secret: bv64, c: Cipher, p: nat)
    requires CipherAt(host, secret, c, p)
    ensures c.shift < 8
  {
  }

  lemma MaskCons(host: Host, secret: bv64, salt: bv64, p: nat, s: seq<byte>)
    ensures Masked(host, secret, salt, p, []) == []
    ensures s != [] ==>
              Masked(host, secret, salt, p, s) == [Xor(s[0], KeyByte(host, secret, salt, 1, p))] + Masked(host, secret, salt, p + 1, s[1..])
  {
    hide KeyByte, Xor;
  }

  /** The reference masks by absolute position, so it does not matter how the bytes were cut into chunks. */
  lemma {:induction false} AlteredMasks(host: Host, secret: bv64, c: Cipher, s: seq<byte>, dim: bool, p: nat)
    requires CipherAt(host, secret, c, p)
    ensures c.shift < 8
    ensures var r := Altered(host, c, s, dim);
            && CipherAt(host, secret, r.0, p + |s|) && r.0.salt == c.salt
            && r.1 == Masked(host, secret, c.salt, p, s)
    decreases |s|
  {
    hide CipherAt, KeyByte, Xor, NextByte, Masked;
    ShiftFits(host, secret, c, p);
    MaskCons(host, secret, c.salt, p, s);
    if s != [] {
      NextByteMasks(host, secret, c, s[0], dim, p);
      NextByteSalt(host, c, s[0], dim);
      AlteredMasks(host, secret, NextByte(host, c, s[0], dim).0, s[1..], dim, p + 1);
    }
  }

  lemma NextByteSalt(host: Host, c: Cipher, b: byte, dim: bool)
    requires c.shift < 8
    ensures NextByte(host, c, b, dim).0.salt == c.salt
  {
  }

  // ---------------------------------------------------------------- writes

  /** What `async_write` hands to the socket, and the cipher after it; `random` is a draw of the generator. */
  function WriteStep(host: Host, secret: bv64, c: Cipher, chunk: seq<byte>, random: bv64): (r: (Cipher, seq<byte>))
    requires c.shift < 8
    ensures r.0.shift < 8
  {
    if secret == 0 then (c, chunk)
    else if c.salt == 0 then
      var (d, data) := Altered(host, Cipher(random, MakeInverter(host, secret, random, true), c.shift), chunk, true);
      (d, Head(host, secret, random) + data)
    else Altered(host, c, chunk, true)
  }

  datatype Chunk = Chunk(data: seq<byte>, random: bv64)

  function Texts(chunks: seq<Chunk>): seq<byte> {
    if chunks == [] then [] else chunks[0].data + Texts(chunks[1..])
  }

  /** The bytes a list of writes puts on the wire. */
  function Wire(host: Host, secret: bv64, c: Cipher, chunks: seq<Chunk>): seq<byte>
    requires c.shift < 8
    decreases |chunks|
  {
    if chunks == [] then []
    else
      var (d, bytes) := WriteStep(host, secret, c, chunks[0].data, chunks[0].random);
      assert d.shift < 8;
      bytes + Wire(host, secret, d, chunks[1..])
  }

  /** The cipher after a list of writes. */
  function After(host: Host, secret: bv64, c: Cipher, chunks: seq<Chunk>): (d: Cipher)
    requires c.shift < 8
    ensures d.shift < 8
    decreases |chunks|
  {
    if chunks == [] then c
    else After(host, secret, WriteStep(host, secret, c, chunks[0].data, chunks[0].random).0, chunks[1..])
  }

  lemma {:induction false} WireSnoc(host: Host, secret: bv64, c: Cipher, chunks: seq<Chunk>, x: Chunk)
    requires c.shift < 8
    ensures var (d, bytes) := WriteStep(host, secret, After(host, secret, c, chunks), x.data, x.random);
            && Wire(host, secret, c, chunks + [x]) == Wire(host, secret, c, chunks) + bytes
            && After(host, secret, c, chunks + [x]) == d
    decreases |chunks|
  {
    hide Altered, Head, MakeInverter;
    if chunks == [] {
      assert (chunks + [x])[1..] == [];
    } else {
      assert (chunks + [x])[1..] == chunks[1..] + [x];
      WireSnoc(host, secret, WriteStep(host, secret, c, chunks[0].data, chunks[0].random).0, chunks[1..], x);
    }
  }

  lemma MaskedAppend(host: Host, secret: bv64, salt: bv64, p: nat, s: seq<byte>, t: seq<byte>)
    ensures Masked(host, secret, salt, p, s + t) == Masked(host, secret, salt, p, s) + Masked(host, secret, salt, p + |s|, t)
  {
    hide Mask;
    MaskAppend(host, secret, salt, 1, p, s, t);
  }

  lemma {:induction false} LaterWrites(host: Host, secret: bv64, c: Cipher, chunks: seq<Chunk>, p: nat)
    requires secret != 0 && c.salt != 0 && CipherAt(host, secret, c, p)
    ensures c.shift < 8
    ensures Wire(host, secret, c, chunks) == Masked(host, secret, c.salt, p, Texts(chunks))
    decreases |chunks|
  {
    hide CipherAt, Masked, Altered, Head, MakeInverter;
    ShiftFits(host, secret, c, p);
    MaskCons(host, secret, c.salt, p, []);
    if chunks != [] {
      AlteredMasks(host, secret, c, chunks[0].data, true, p);
      LaterWrites(host, secret, Altered(host, c, chunks[0].data, true).0, chunks[1..], p + |chunks[0].data|);
      MaskedAppend(host, secret, c.salt, p, chunks[0].data, Texts(chunks[1..]));
    }
  }

  /** The cipher right after the header: no byte of the keystream has been used for data. */
  lemma StartsAtZero(host: Host, secret: bv64, salt: bv64, dim: bool)
    ensures CipherAt(host, secret, Cipher(salt, MakeInverter(host, secret, salt, dim), 0), 0)
  {
    hide Key, MakeInverter;
    NextKey(host, secret, salt, 0, dim);
  }

  /** Whatever the chunks, the wire carries one header and then the whole text masked by absolute position. */
  lemma WireOfWrites(host: Host, secret: bv64, chunks: seq<Chunk>)
    requires secret != 0 && chunks != [] && chunks[0].random != 0
    ensures Wire(host, secret, IDLE, chunks) ==
            Head(host, secret, chunks[0].random) + Masked(host, secret, chunks[0].random, 0, Texts(chunks))
  {
    hide CipherAt, Masked, Altered, Head, MakeInverter;
    var salt := chunks[0].random;
    var c := Cipher(salt, MakeInverter(host, secret, salt, true), 0);
    StartsAtZero(host, secret, salt, true);
    AlteredMasks(host, secret, c, chunks[0].data, true, 0);
    LaterWrites(host, secret, Altered(host, c, chunks[0].data, true).0, chunks[1..], |chunks[0].data|);
    MaskedAppend(host, secret, salt, 0, chunks[0].data, Texts(chunks[1..]));
    var first := Masked(host, secret, salt, 0, chunks[0].data);
    var more := Masked(host, secret, salt, |chunks[0].data|, Texts(chunks[1..]));
    assert (Head(host, secret, salt) + first) + more == Head(host, secret, salt) + (first + more);
  }

  // ---------------------------------------------------------------- reads

  datatype ReadCode = Done | Cut | NoRecovery

  /** A completed `async_read`: the cipher, the bytes delivered, the bytes taken off the wire, and the outcome. */
  datatype ReadResult = ReadResult(cipher: Cipher, bytes: seq<byte>, taken: nat, code: ReadCode)

  /** A read of n bytes when `rest` is all that will still arrive; it falls short only at the end of the stream. */
  function ReadStep(host: Host, secret: bv64, c: Cipher, rest: seq<byte>, n: nat): (r: ReadResult)
    requires c.shift < 8
    ensures r.taken <= |rest| && r.cipher.shift < 8
  {
    if secret == 0 then
      var k := Min(n, |rest|);
      ReadResult(c, rest[..k], k, Done)
    else if c.salt == 0 then
      var k := Min(HEAD_SIZE + n, |rest|);
      if k < HEAD_SIZE then ReadResult(c, [], k, Cut)
      else
        var salt := HeadSalt(host, secret, rest[..HEAD_SIZE]);
        var d := Cipher(salt, MakeInverter(host, secret, salt, false), c.shift);
        if HeadSign(host, secret, rest[..HEAD_SIZE]) != SIGNATURE then ReadResult(d, [], k, NoRecovery)
        else
          var (e, data) := Altered(host, d, rest[HEAD_SIZE..k], false);
          ReadResult(e, data, k, Done)
    else
      var k := Min(n, |rest|);
      var (e, data) := Altered(host, c, rest[..k], false);
      ReadResult(e, data, k, Done)
  }

  /** The bytes a list of reads delivers, read after read. */
  function ReadAll(host: Host, secret: bv64, c: Cipher, rest: seq<byte>, sizes: seq<nat>): seq<byte>
    requires c.shift < 8
    decreases |sizes|
  {
    if sizes == [] then []
    else
      var r := ReadStep(host, secret, c, rest, sizes[0]);
      r.bytes + ReadAll(host, secret, r.cipher, rest[r.taken..], sizes[1..])
  }

  /** Where a list of reads leaves the reader: its cipher, and the bytes taken off the wire. */
  function ReadState(host: Host, secret: bv64, c: Cipher, rest: seq<byte>, sizes: seq<nat>): (r: (Cipher, nat))
    requires c.shift < 8
    ensures r.0.shift < 8 && r.1 <= |rest|
    decreases |sizes|
  {
    if sizes == [] then (c, 0)
    else
      var r := ReadStep(host, secret, c, rest, sizes[0]);
      var (d, n) := ReadState(host, secret, r.cipher, rest[r.taken..], sizes[1..]);
      (d, r.taken + n)
  }

  /** One more read goes on where the others stopped. */
  lemma {:induction false} ReadSnoc(host: Host, secret: bv64, c: Cipher, rest: seq<byte>, sizes: seq<nat>, n: nat)
    requires c.shift < 8
    ensures var (d, taken) := ReadState(host, secret, c, rest, sizes);
            var r := ReadStep(host, secret, d, rest[taken..], n);
            && ReadAll(host, secret, c, rest, sizes + [n]) == ReadAll(host, secret, c, rest, sizes) + r.bytes
            && ReadState(host, secret, c, rest, sizes + [n]) == (r.cipher, taken + r.taken)
    decreases |sizes|
  {
    hide ReadStep;
    if sizes == [] {
      assert (sizes + [n])[1..] == [];
      assert rest[0..] == rest;
    } else {
      assert (sizes + [n])[1..] == sizes[1..] + [n];
      var r := ReadStep(host, secret, c, rest, sizes[0]);
      ReadSnoc(host, secret, r.cipher, rest[r.taken..], sizes[1..], n);
      var (d, taken) := ReadState(host, secret, r.cipher, rest[r.taken..], sizes[1..]);
      assert rest[r.taken..][taken..] == rest[r.taken + taken..];
    }
  }

  function Sum(sizes: seq<nat>): nat {
    if sizes == [] then 0 else sizes[0] + Sum(sizes[1..])
  }

  /** The first k bytes of a masked text come back as themselves; what follows is the masked rest. */
  lemma TakeMasked(host: Host, secret: bv64, salt: bv64, p: nat, text: seq<byte>, k: nat)
    requires k <= |text|
    ensures var rest := Masked(host, secret, salt, p, text);
            && |rest| == |text|
            && Masked(host, secret, salt, p, rest[..k]) == text[..k]
            && rest[k..] == Masked(host, secret, salt, p + k, text[k..])
  {
    hide KeyByte, Mask;
    MaskSlice(host, secret, salt, 1, p, text, 0, k);
    MaskSlice(host, secret, salt, 1, p, text, k, |text|);
    MaskTwice(host, secret, salt, 1, p, text[..k]);
    assert text[0..k] == text[..k] && text[k..|text|] == text[k..];
    var rest := Masked(host, secret, salt, p, text);
    assert rest[0..k] == rest[..k] && rest[k..|text|] == rest[k..];
  }

  lemma PrefixGrows(text: seq<byte>, sizes: seq<nat>)
    requires sizes != []
    ensures var k := Min(sizes[0], |text|);
            text[..k] + text[k..][..Min(Sum(sizes[1..]), |text| - k)] == text[..Min(Sum(sizes), |text|)]
  {
  }

  lemma {:induction false} LaterReads(host: Host, secret: bv64, c: Cipher, text: seq<byte>, p: nat, sizes: seq<nat>)
    requires secret != 0 && c.salt != 0 && CipherAt(host, secret, c, p)
    ensures c.shift < 8
    ensures ReadAll(host, secret, c, Masked(host, secret, c.salt, p, text), sizes) == text[..Min(Sum(sizes), |text|)]
    decreases |sizes|
  {
    hide CipherAt, Masked, Altered, HeadSalt, HeadSign, MakeInverter, Sum;
    ShiftFits(host, secret, c, p);
    NoSizes();
    if sizes != [] {
      var k := Min(sizes[0], |text|);
      TakeMasked(host, secret, c.salt, p, text, k);
      var rest := Masked(host, secret, c.salt, p, text);
      AlteredMasks(host, secret, c, rest[..k], false, p);
      LaterReads(host, secret, Altered(host, c, rest[..k], false).0, text[k..], p + k, sizes[1..]);
      PrefixGrows(text, sizes);
    }
  }

  lemma NoSizes()
    ensures Sum([]) == 0
  {
  }

  lemma FirstRead(host: Host, secret: bv64, salt: bv64, text: seq<byte>, n: nat)
    requires secret != 0 && salt != 0
    ensures var r := ReadStep(host, secret, IDLE, Head(host, secret, salt) + Masked(host, secret, salt, 0, text), n);
            var k := Min(n, |text|);
            && r.code == Done && r.bytes == text[..k] && r.taken == HEAD_SIZE + k
            && r.cipher.salt == salt && CipherAt(host, secret, r.cipher, k)
  {
    hide CipherAt, Masked, Altered, Head, HeadSalt, HeadSign, MakeInverter;
    var k := Min(n, |text|);
    HeadRoundTrip(host, secret, salt);
    StartsAtZero(host, secret, salt, false);
    TakeMasked(host, secret, salt, 0, text, k);
    var head := Head(host, secret, salt);
    var data := Masked(host, secret, salt, 0, text);
    var rest := head + data;
    assert rest[..HEAD_SIZE] == head && rest[HEAD_SIZE..HEAD_SIZE + k] == data[..k];
    AlteredMasks(host, secret, Cipher(salt, MakeInverter(host, secret, salt, false), 0), data[..k], false, 0);
  }

  /** Reads of a header and a masked text. */
  lemma SaltedReads(host: Host, secret: bv64, salt: bv64, text: seq<byte>, sizes: seq<nat>)
    requires secret != 0 && salt != 0
    ensures ReadAll(host, secret, IDLE, Head(host, secret, salt) + Masked(host, secret, salt, 0, text), sizes)
            == text[..Min(Sum(sizes), |text|)]
  {
    hide CipherAt, Masked, Head, ReadStep, Sum;
    NoSizes();
    if sizes != [] {
      var k := Min(sizes[0], |text|);
      FirstRead(host, secret, salt, text, sizes[0]);
      TakeMasked(host, secret, salt, 0, text, k);
      var rest := Head(host, secret, salt) + Masked(host, secret, salt, 0, text);
      var r := ReadStep(host, secret, IDLE, rest, sizes[0]);
      assert rest[r.taken..] == Masked(host, secret, salt, 0, text)[k..];
      LaterReads(host, secret, r.cipher, text[k..], k, sizes[1..]);
      PrefixGrows(text, sizes);
    }
  }

  /**
   * For any split into writes and any other split into reads, header included, the reads deliver exactly the
   * prefix of the written text that they ask for, as far as there is text.
   */
  lemma StreamRoundTrip(host: Host, secret: bv64, chunks: seq<Chunk>, sizes: seq<nat>)
    requires chunks != [] && (secret != 0 ==> chunks[0].random != 0)
    ensures var text := Texts(chunks);
            ReadAll(host, secret, IDLE, Wire(host, secret, IDLE, chunks), sizes) == text[..Min(Sum(sizes), |text|)]
  {
    hide CipherAt, Masked, Head, ReadStep, Wire, Sum, ReadAll;
    if secret == 0 {
      PlainWire(host, chunks);
      PlainReads(host, IDLE, Texts(chunks), sizes);
    } else {
      WireOfWrites(host, secret, chunks);
      SaltedReads(host, secret, chunks[0].random, Texts(chunks), sizes);
    }
  }

  /** A connection that breaks leaves the reader with a prefix of the wire, and so with a prefix of the text. */
  lemma BrokenStream(host: Host, secret: bv64, chunks: seq<Chunk>, sizes: seq<nat>, m: nat)
    requires chunks != [] && (secret != 0 ==> chunks[0].random != 0)
    requires m <= |Wire(host, secret, IDLE, chunks)|
    ensures ReadAll(host, secret, IDLE, Wire(host, secret, IDLE, chunks)[..m], sizes) <= Texts(chunks)
  {
    hide CipherAt, Masked, Head, ReadStep, Wire, Sum, ReadAll;
    var text := Texts(chunks);
    var wire := Wire(host, secret, IDLE, chunks);
    if secret == 0 {
      PlainWire(host, chunks);
      PlainReads(host, IDLE, text[..m], sizes);
    } else {
      var salt := chunks[0].random;
      WireOfWrites(host, secret, chunks);
      if m < HEAD_SIZE {
        HeadCut(host, secret, wire[..m], sizes);
      } else {
        var n := m - HEAD_SIZE;
        MaskedPrefix(host, secret, salt, text, 0);
        MaskedPrefix(host, secret, salt, text, n);
        assert wire[..m] == Head(host, secret, salt) + Masked(host, secret, salt, 0, text)[..n];
        SaltedReads(host, secret, salt, text[..n], sizes);
      }
    }
  }

  lemma MaskedPrefix(host: Host, secret: bv64, salt: bv64, text: seq<byte>, n: nat)
    requires n <= |text|
    ensures |Masked(host, secret, salt, 0, text)| == |text|
    ensures Masked(host, secret, salt, 0, text)[..n] == Masked(host, secret, salt, 0, text[..n])
  {
    hide KeyByte, Mask;
    MaskSlice(host, secret, salt, 1, 0, text, 0, n);
    assert text[0..n] == text[..n];
  }

  /** A stream that ends inside the header delivers nothing. */
  lemma {:induction false} HeadCut(host: Host, secret: bv64, rest: seq<byte>, sizes: seq<nat>)
    requires secret != 0 && |rest| < HEAD_SIZE
    ensures ReadAll(host, secret, IDLE, rest, sizes) == []
    decreases |sizes|
  {
    hide Altered, HeadSalt, HeadSign, MakeInverter;
    if sizes != [] {
      var r := ReadStep(host, secret, IDLE, rest, sizes[0]);
      HeadCut(host, secret, rest[r.taken..], sizes[1..]);
    }
  }

  lemma {:induction false} PlainWire(host: Host, chunks: seq<Chunk>)
    ensures Wire(host, 0, IDLE, chunks) == Texts(chunks)
    decreases |chunks|
  {
    if chunks != [] {
      PlainWire(host, chunks[1..]);
    }
  }

  lemma {:induction false} PlainReads(host: Host, c: Cipher, text: seq<byte>, sizes: seq<nat>)
    requires c.shift < 8
    ensures ReadAll(host, 0, c, text, sizes) == text[..Min(Sum(sizes), |text|)]
    decreases |sizes|
  {
    if sizes != [] {
      var k := Min(sizes[0], |text|);
      PlainReads(host, c, text[k..], sizes[1..]);
      assert text[..k] + text[k..][..Min(Sum(sizes[1..]), |text| - k)] == text[..Min(Sum(sizes), |text|)];
    }
  }

  // ---------------------------------------------------------------- a salt of zero

  /** The reads deliver what the writes wrote. */
  ghost predicate Faithful(host: Host, secret: bv64, chunks: seq<Chunk>, sizes: seq<nat>) {
    var text := Texts(chunks);
    ReadAll(host, secret, IDLE, Wire(host, secret, IDLE, chunks), sizes) == text[..Min(Sum(sizes), |text|)]
  }

  /** After a header with salt 0 the next write starts over with another header. */
  lemma SecondHeader(host: Host, secret: bv64, x: byte, y: byte, random: bv64)
    requires secret != 0
    ensures var wire := Wire(host, secret, IDLE, [Chunk([x], 0), Chunk([y], random)]);
            var head := Head(host, secret, 0);
            && |wire| >= HEAD_SIZE + 2
            && wire[..HEAD_SIZE + 2] == head + Masked(host, secret, 0, 0, [x]) + [Head(host, secret, random)[0]]
  {
    hide CipherAt, Masked, Altered, Head, MakeInverter;
    var chunks := [Chunk([x], 0), Chunk([y], random)];
    var c := Cipher(0, MakeInverter(host, secret, 0, true), 0);
    StartsAtZero(host, secret, 0, true);
    AlteredMasks(host, secret, c, [x], true, 0);
    var d := Altered(host, c, [x], true).0;
    var tail := Wire(host, secret, d, chunks[1..]);
    assert Wire(host, secret, IDLE, chunks) == (Head(host, secret, 0) + Altered(host, c, [x], true).1) + tail;
    assert tail[..HEAD_SIZE] == Head(host, secret, random);
  }

  /** One read of two bytes then takes a byte of that second header for data, whatever was written. */
  lemma ReadsHeaderAsData(host: Host, secret: bv64, x: byte, y: byte, random: bv64)
    requires secret != 0
    ensures var wire := Wire(host, secret, IDLE, [Chunk([x], 0), Chunk([y], random)]);
            ReadAll(host, secret, IDLE, wire, [2]) == [x, Xor(Head(host, secret, random)[0], KeyByte(host, secret, 0, 1, 1))]
  {
    hide CipherAt, Altered, Head, HeadSalt, HeadSign, MakeInverter, KeyByte, Xor, Wire;
    SecondHeader(host, secret, x, y, random);
    HeadRoundTrip(host, secret, 0);
    StartsAtZero(host, secret, 0, false);
    var wire := Wire(host, secret, IDLE, [Chunk([x], 0), Chunk([y], random)]);
    var head := Head(host, secret, 0);
    var h := Head(host, secret, random)[0];
    var x' := Xor(x, KeyByte(host, secret, 0, 1, 0));
    assert Masked(host, secret, 0, 0, [x]) == [x'];
    assert wire[..HEAD_SIZE] == wire[..HEAD_SIZE + 2][..HEAD_SIZE] == head;
    assert wire[HEAD_SIZE..HEAD_SIZE + 2] == wire[..HEAD_SIZE + 2][HEAD_SIZE..] == [x', h];
    var c := Cipher(0, MakeInverter(host, secret, 0, false), 0);
    AlteredMasks(host, secret, c, [x', h], false, 0);
    ByteXorTwice(x, KeyByte(host, secret, 0, 1, 0));
    var r := ReadStep(host, secret, IDLE, wire, 2);
    assert r.bytes == [x, Xor(h, KeyByte(host, secret, 0, 1, 1))];
    assert ReadAll(host, secret, IDLE, wire, [2]) == r.bytes + ReadAll(host, secret, r.cipher, wire[r.taken..], [2][1..]);
  }

  lemma TwoBytes(x: byte, y: byte, random: bv64)
    ensures Texts([Chunk([x], 0), Chunk([y], random)]) == [x, y] && Sum([2]) == 2
  {
    var chunks := [Chunk([x], 0), Chunk([y], random)];
    assert chunks[1..] == [Chunk([y], random)];
    assert chunks[1..][1..] == [];
    assert Texts(chunks[1..]) == [y] + Texts([]);
    assert [x] + [y] == [x, y];
    assert [2][1..] == [];
  }

  /** With salt 0 there are writes and a read that do not agree. */
  lemma ZeroSaltUnfaithful(host: Host, secret: bv64) returns (chunks: seq<Chunk>, sizes: seq<nat>)
    requires secret != 0
    ensures chunks != [] && chunks[0].random == 0 && !Faithful(host, secret, chunks, sizes)
  {
    hide Head, KeyByte, Wire, ReadAll, Xor, Texts, Sum;
    var z := Xor(Head(host, secret, 1)[0], KeyByte(host, secret, 0, 1, 1));
    var y: byte := if z == 0 then 1 else 0;
    chunks, sizes := [Chunk([0], 0), Chunk([y], 1)], [2];
    ReadsHeaderAsData(host, secret, 0, y, 1);
    TwoBytes(0, y, 1);
    assert [0, y][..2] == [0, y];
  }

  /** Every split of writes and reads is faithful if and only if the generator's first draw is not zero. */
  lemma FaithfulIffSalted(host: Host, secret: bv64, salt: bv64)
    requires secret != 0
    ensures (forall chunks: seq<Chunk>, sizes :: chunks != [] && chunks[0].random == salt ==> Faithful(host, secret, chunks, sizes))
            <==> salt != 0
  {
    hide Faithful;
    if salt != 0 {
      forall chunks: seq<Chunk>, sizes | chunks != [] && chunks[0].random == salt ensures Faithful(host, secret, chunks, sizes) {
        SaltedFaithful(host, secret, chunks, sizes);
      }
    } else {
      var chunks, sizes := ZeroSaltUnfaithful(host, secret);
    }
  }

  lemma SaltedFaithful(host: Host, secret: bv64, chunks: seq<Chunk>, sizes: seq<nat>)
    requires chunks != [] && chunks[0].random != 0
    ensures Faithful(host, secret, chunks, sizes)
  {
    hide Wire, ReadAll, Texts, Sum;
    StreamRoundTrip(host, secret, chunks, sizes);
  }

  // ---------------------------------------------------------------- the stream object

  class Stream {
    const host: Host
    const secret: bv64
    var output: Cipher
    var input: Cipher

    ghost predicate Valid()
      reads this
    {
      output.shift < 8 && input.shift < 8
    }

    constructor (host: Host, secret: bv64)
      ensures Valid() && output == IDLE && input == IDLE && this.host == host && this.secret == secret
    {
      this.host, this.secret := host, secret;
      output, input := IDLE, IDLE;
    }

    /** `write_head`: draw a salt and start the keystream; the shift stays. */
    method WriteHead(random: bv64) returns (head: seq<byte>)
      requires Valid()
      modifies this`output
      ensures head == Head(host, secret, random)
      ensures output == Cipher(random, MakeInverter(host, secret, random, true), old(output).shift)
    {
      hide Key, MakeInverter, MemByte, ToBig, XorWords;
      output := Cipher(random, MakeInverter(host, secret, random, true), output.shift);
      NextKey(host, secret, random, 0, true);
      var a := new byte[16];
      PutWord(a, 0, host, ToBig(host, XorWords(output.salt, secret)));
      PutWord(a, 8, host, ToBig(host, XorWords(SIGNATURE, output.inverter)));
      head := a[..];
      assert head[..8] == Store(host, ToBig(host, XorWords(output.salt, secret)));
      assert head[8..] == Store(host, ToBig(host, XorWords(SIGNATURE, output.inverter)));
      assert head == head[..8] + head[8..];
    }

    /** What `async_write` hands to the socket. */
    method AsyncWrite(chunk: seq<byte>, random: bv64) returns (wire: seq<byte>)
      requires Valid()
      modifies this`output
      ensures Valid() && old(output).shift < 8
      ensures (output, wire) == WriteStep(host, secret, old(output), chunk, random)
    {
      hide Key, MakeInverter, Altered, Head;
      if secret == 0 {
        return chunk;
      }
      wire := [];
      if output.salt == 0 {
        wire := WriteHead(random);
      }
      var a := new byte[|chunk|](i requires 0 <= i < |chunk| => chunk[i]);
      assert a[..] == chunk;
      output := AlterData(host, output, a, true);
      assert [] + a[..] == a[..];
      wire := wire + a[..];
    }

    /** `read_head`: take over the peer's salt and check the signature; the shift stays. */
    method ReadHead(head: seq<byte>) returns (sign: bv64)
      requires Valid() && |head| == HEAD_SIZE
      modifies this`input
      ensures sign == HeadSign(host, secret, head)
      ensures var salt := HeadSalt(host, secret, head);
              input == Cipher(salt, MakeInverter(host, secret, salt, false), old(input).shift)
    {
      hide MakeInverter;
      var salt := XorWords(FromBig(host, Load(host, head[..8])), secret);
      input := Cipher(salt, MakeInverter(host, secret, salt, false), input.shift);
      sign := XorWords(FromBig(host, Load(host, head[8..])), input.inverter);
    }

    /** A read whose bytes have arrived: `rest` is what comes in from here on, header included if one is due. */
    method AsyncRead(rest: seq<byte>, n: nat) returns (r: ReadResult)
      requires Valid()
      modifies this`input
      ensures Valid() && old(input).shift < 8
      ensures r == ReadStep(host, secret, old(input), rest, n) && input == r.cipher
    {
      hide Key, MakeInverter, Altered, HeadSalt, HeadSign;
      if secret == 0 {
        var k := Min(n, |rest|);
        return ReadResult(input, rest[..k], k, Done);
      }
      var from := 0;
      if input.salt == 0 {
        if Min(HEAD_SIZE + n, |rest|) < HEAD_SIZE {
          return ReadResult(input, [], Min(HEAD_SIZE + n, |rest|), Cut);
        }
        var sign := ReadHead(rest[..HEAD_SIZE]);
        from := HEAD_SIZE;
        if sign != SIGNATURE {
          return ReadResult(input, [], Min(HEAD_SIZE + n, |rest|), NoRecovery);
        }
      }
      var k := Min(from + n, |rest|);
      var data := rest[from..k];
      var a := new byte[|data|](i requires 0 <= i < |data| => data[i]);
      assert a[..] == data;
      input := AlterData(host, input, a, false);
      r := ReadResult(input, a[..], k, Done);
    }
  }
}
