/** Obfuscation of a UDP packet in place. */
module UdpCipher {
  import opened Protocol
  import opened Keystream

  /** The salt field says whether a packet is still plain; `random` is what the random generator would yield. */
  function SaltOf(host: Host, secret: bv64, random: bv64, s: seq<byte>): bv64
    requires |s| >= 8
  {
    var field := Load(host, s[..8]);
    if field == 0 then random else XorWords(FromBig(host, field), secret)
  }

  function FieldAfter(host: Host, secret: bv64, random: bv64, s: seq<byte>): bv64
    requires |s| >= 8
  {
    if Load(host, s[..8]) == 0 then ToBig(host, XorWords(random, secret)) else 0
  }

  /** The packet after `invert`: the new salt field, then every byte masked by its position. */
  function Inverted(host: Host, secret: bv64, random: bv64, s: seq<byte>): (r: seq<byte>)
    requires |s| >= 8
    ensures |r| == |s|
  {
    Store(host, FieldAfter(host, secret, random, s)) + Mask(host, secret, SaltOf(host, secret, random, s), 0, 0, s[8..])
  }

  /** `packet::invert` on the first `size` bytes: a word at a time, and the last 0 to 7 bytes one by one. */
  method Invert(host: Host, secret: bv64, random: bv64, a: array<byte>, size: nat)
    requires 8 <= size <= a.Length
    modifies a
    ensures a[..size] == Inverted(host, secret, random, old(a[..size]))
    ensures a[size..] == old(a[size..])
  {
    hide Load, Store, MemByte, Key, MakeInverter, ToBig, FromBig, XorWords, Xor;
    ghost var was := a[..];
    var field := Load(host, a[..8]);
    assert a[..8] == was[..size][..8];
    var dim := field == 0;
    var salt := if dim then random else XorWords(FromBig(host, field), secret);
    var next := if dim then ToBig(host, XorWords(random, secret)) else 0;
    PutWord(a, 0, host, next);
    ghost var started := a[..];
    MaskBody(host, secret, salt, dim, a, size);
    Finished(host, secret, random, was, started, a[..], size);
  }

  /** The two masking loops behind the salt field. */
  method MaskBody(host: Host, secret: bv64, salt: bv64, dim: bool, a: array<byte>, size: nat)
    requires 8 <= size <= a.Length
    modifies a
    ensures MaskedTo(host, secret, salt, old(a[..]), a[..], size)
  {
    hide MemByte, Key, MakeInverter, Xor, KeyByte, MaskedTo;
    ghost var started := a[..];
    var ptr := 8;
    ghost var k := 0;
    var inverter := MakeInverter(host, secret, salt, dim);
    NothingMasked(host, secret, salt, a[..]);
    NextKey(host, secret, salt, 0, dim);
    while ptr + 8 <= size
      invariant ptr == 8 + 8 * k <= size
      invariant inverter == Key(host, secret, salt, k)
      invariant MaskedTo(host, secret, salt, started, a[..], ptr)
    {
      ghost var before := a[..];
      XorWord(a, ptr, host, inverter);
      WordMasked(host, secret, salt, started, before, a[..], k);
      NextKey(host, secret, salt, k, dim);
      inverter := MakeInverter(host, inverter, salt, dim);
      ptr := ptr + 8;
      k := k + 1;
    }

    var inv := 0;
    while ptr < size
      invariant ptr == 8 + 8 * k + inv <= size && 0 <= inv <= size - 8 - 8 * k < 8
      invariant inverter == Key(host, secret, salt, k)
      invariant MaskedTo(host, secret, salt, started, a[..], ptr)
    {
      ghost var before := a[..];
      a[ptr] := Xor(a[ptr], MemByte(host, inverter, inv));
      TailMasked(host, secret, salt, started, before, a[..], k, inv);
      ptr := ptr + 1;
      inv := inv + 1;
    }
  }

  /** From the first word on, the bytes before `ptr` are masked and the others are untouched. */
  ghost predicate MaskedTo(host: Host, secret: bv64, salt: bv64, s: seq<byte>, t: seq<byte>, ptr: nat) {
    && 8 <= ptr <= |s| == |t|
    && (forall j :: 0 <= j < 8 ==> t[j] == s[j])
    && (forall j :: 8 <= j < ptr ==> t[j] == Xor(s[j], KeyByte(host, secret, salt, 0, j - 8)))
    && (forall j :: ptr <= j < |s| ==> t[j] == s[j])
  }

  lemma NothingMasked(host: Host, secret: bv64, salt: bv64, s: seq<byte>)
    requires |s| >= 8
    ensures MaskedTo(host, secret, salt, s, s, 8)
  {
  }

  lemma WordMasked(host: Host, secret: bv64, salt: bv64, s: seq<byte>, before: seq<byte>, after: seq<byte>, k: nat)
    requires MaskedTo(host, secret, salt, s, before, 8 + 8 * k) && 8 + 8 * k + 8 <= |s| == |after|
    requires forall i :: 0 <= i < 8 ==>
               after[8 + 8 * k + i] == Xor(before[8 + 8 * k + i], MemByte(host, Key(host, secret, salt, k), i))
    requires forall j :: 0 <= j < |s| && !(8 + 8 * k <= j < 8 + 8 * k + 8) ==> after[j] == before[j]
    ensures MaskedTo(host, secret, salt, s, after, 8 + 8 * (k + 1))
  {
    hide Key, MemByte, Xor;
    forall j | 8 <= j < 16 + 8 * k ensures after[j] == Xor(s[j], KeyByte(host, secret, salt, 0, j - 8)) {
      if j >= 8 + 8 * k {
        var i := j - 8 - 8 * k;
        assert j == 8 + 8 * k + i;
        assert (j - 8) / 8 == k && (j - 8) % 8 == i;
      }
    }
  }

  lemma TailMasked(host: Host, secret: bv64, salt: bv64, s: seq<byte>, before: seq<byte>, after: seq<byte>, k: nat, inv: nat)
    requires inv < 8 && MaskedTo(host, secret, salt, s, before, 8 + 8 * k + inv) && 8 + 8 * k + inv < |s|
    requires after == before[8 + 8 * k + inv := Xor(before[8 + 8 * k + inv], MemByte(host, Key(host, secret, salt, k), inv))]
    ensures MaskedTo(host, secret, salt, s, after, 8 + 8 * k + inv + 1)
  {
    hide Key, MemByte, Xor;
    var at := 8 + 8 * k + inv;
    forall j | 8 <= j < at + 1 ensures after[j] == Xor(s[j], KeyByte(host, secret, salt, 0, j - 8)) {
      if j == at {
        assert (j - 8) / 8 == k && (j - 8) % 8 == inv;
      }
    }
  }

  lemma Finished(host: Host, secret: bv64, random: bv64, was: seq<byte>, started: seq<byte>, done: seq<byte>, size: nat)
    requires 8 <= size <= |was| == |started| && started[8..] == was[8..]
    requires var s := was[..size];
             && (forall i :: 0 <= i < 8 ==> started[i] == MemByte(host, FieldAfter(host, secret, random, s), i))
             && MaskedTo(host, secret, SaltOf(host, secret, random, s), started, done, size)
    ensures done[..size] == Inverted(host, secret, random, was[..size]) && done[size..] == was[size..]
  {
    hide KeyByte, MemByte, Xor, SaltOf, FieldAfter;
    var r := Inverted(host, secret, random, was[..size]);
    forall j | 8 <= j < |was| ensures started[j] == was[j] {
      assert started[8..][j - 8] == was[8..][j - 8];
    }
    forall j | 0 <= j < size ensures done[j] == r[j] {
    }
  }

  /** A packet whose salt field is zero. */
  ghost predicate Plain(s: seq<byte>) {
    |s| >= 8 && forall i :: 0 <= i < 8 ==> s[i] == 0
  }

  lemma PlainField(host: Host, s: seq<byte>)
    requires |s| >= 8
    ensures Load(host, s[..8]) == 0 <==> Plain(s)
  {
    hide MemByte, Load;
    ZeroBytes(host);
    if Load(host, s[..8]) == 0 {
      StoreLoad(host, s[..8]);
      assert s[..8] == Store(host, 0);
    }
    if Plain(s) {
      LoadStore(host, 0);
      assert s[..8] == Store(host, 0);
    }
  }

  lemma ZeroBytes(host: Host)
    ensures forall i :: 0 <= i < 8 ==> Store(host, 0)[i] == 0
  {
    assert Lane0(0) == 0 && Lane1(0) == 0 && Lane2(0) == 0 && Lane3(0) == 0;
    assert Lane4(0) == 0 && Lane5(0) == 0 && Lane6(0) == 0 && Lane7(0) == 0;
  }

  /** With a salt that differs from the secret, the second inversion restores every byte. */
  lemma RestoresPacket(host: Host, secret: bv64, salt: bv64, other: bv64, s: seq<byte>)
    requires Plain(s) && salt != secret
    ensures Inverted(host, secret, other, Inverted(host, secret, salt, s)) == s
  {
    hide Load, Store, ToBig, FromBig, XorWords, Mask;
    PlainField(host, s);
    var field := ToBig(host, XorWords(salt, secret));
    WordXorTwice(salt, secret);
    BigRoundTrip(host, XorWords(salt, secret));
    LoadStore(host, field);
    var t := Inverted(host, secret, salt, s);
    assert t[..8] == Store(host, field);
    assert t[8..] == Mask(host, secret, salt, 0, 0, s[8..]);
    MaskTwice(host, secret, salt, 0, 0, s[8..]);
    ZeroBytesStored(host, s);
    assert s == s[..8] + s[8..];
  }

  lemma ZeroBytesStored(host: Host, s: seq<byte>)
    requires Plain(s)
    ensures s[..8] == Store(host, 0)
  {
    ZeroBytes(host);
  }

  /**
   * `invert` applied twice to a plain packet restores it if and only if the first salt differs from the secret,
   * or both salts equal it: a salt equal to the secret leaves the field zero, and the packet looks plain again.
   */
  lemma InvolutionIff(host: Host, secret: bv64, first: bv64, second: bv64, s: seq<byte>)
    requires Plain(s)
    ensures Inverted(host, secret, second, Inverted(host, secret, first, s)) == s <==> first != secret || second == secret
  {
    if first != secret {
      RestoresPacket(host, secret, first, second, s);
    } else {
      hide Load, Store, ToBig, FromBig, XorWords, Mask;
      PlainField(host, s);
      WordXorTwice(first, secret);
      BigRoundTrip(host, 0);
      var t := Inverted(host, secret, first, s);
      LoadStore(host, 0);
      assert t[..8] == Store(host, 0);
      assert t[8..] == Mask(host, secret, first, 0, 0, s[8..]);
      ZeroBytesStored(host, s);
      var field := ToBig(host, XorWords(second, secret));
      var u := Inverted(host, secret, second, t);
      assert u[..8] == Store(host, field);
      WordXorTwice(second, secret);
      BigRoundTrip(host, XorWords(second, secret));
      LoadStore(host, field);
      if second == secret {
        MaskTwice(host, secret, first, 0, 0, s[8..]);
        assert s == s[..8] + s[8..];
      }
    }
  }
}
