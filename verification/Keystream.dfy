/** 64-bit words in memory and the generator of the obfuscation keystream. */
module Keystream {
  import opened Protocol

  /** The byte order of the machine; both ends of a channel are assumed to share it. */
  datatype Host = LittleEndian | BigEndian

  // ---------------------------------------------------------------- words and bytes

  // Each bit operation has a name, so that proofs about memory can leave its bits out of sight.

  function XorWords(x: bv64, y: bv64): bv64 { x ^ y }

  function Xor(a: byte, b: byte): byte { a ^ b }

  function Lane0(w: bv64): byte { (w & 0xFF) as byte }

  function Lane1(w: bv64): byte { ((w >> 8) & 0xFF) as byte }

  function Lane2(w: bv64): byte { ((w >> 16) & 0xFF) as byte }

  function Lane3(w: bv64): byte { ((w >> 24) & 0xFF) as byte }

  function Lane4(w: bv64): byte { ((w >> 32) & 0xFF) as byte }

  function Lane5(w: bv64): byte { ((w >> 40) & 0xFF) as byte }

  function Lane6(w: bv64): byte { ((w >> 48) & 0xFF) as byte }

  function Lane7(w: bv64): byte { ((w >> 56) & 0xFF) as byte }

  /** The i-th least significant byte of w. */
  function Lane(w: bv64, i: nat): byte
    requires i < 8
  {
    if i == 0 then Lane0(w)
    else if i == 1 then Lane1(w)
    else if i == 2 then Lane2(w)
    else if i == 3 then Lane3(w)
    else if i == 4 then Lane4(w)
    else if i == 5 then Lane5(w)
    else if i == 6 then Lane6(w)
    else Lane7(w)
  }

  /** The word with lanes b0 (least significant) to b7. */
  function Join8(b0: byte, b1: byte, b2: byte, b3: byte, b4: byte, b5: byte, b6: byte, b7: byte): bv64 {
    (b0 as bv64) | ((b1 as bv64) << 8) | ((b2 as bv64) << 16) | ((b3 as bv64) << 24)
    | ((b4 as bv64) << 32) | ((b5 as bv64) << 40) | ((b6 as bv64) << 48) | ((b7 as bv64) << 56)
  }

  /** The byte at address i of a word in memory. */
  function MemByte(host: Host, w: bv64, i: nat): byte
    requires i < 8
  {
    Lane(w, if host == LittleEndian then i else 7 - i)
  }

  /** The word stored in eight bytes of memory. */
  function Load(host: Host, s: seq<byte>): bv64
    requires |s| == 8
  {
    if host == LittleEndian then Join8(s[0], s[1], s[2], s[3], s[4], s[5], s[6], s[7])
    else Join8(s[7], s[6], s[5], s[4], s[3], s[2], s[1], s[0])
  }

  function Store(host: Host, w: bv64): (s: seq<byte>)
    ensures |s| == 8
  {
    seq(8, i requires 0 <= i < 8 => MemByte(host, w, i))
  }

  lemma Lane0Xor(x: bv64, y: bv64) ensures Lane0(XorWords(x, y)) == Xor(Lane0(x), Lane0(y)) {}

  lemma Lane1Xor(x: bv64, y: bv64) ensures Lane1(XorWords(x, y)) == Xor(Lane1(x), Lane1(y)) {}

  lemma Lane2Xor(x: bv64, y: bv64) ensures Lane2(XorWords(x, y)) == Xor(Lane2(x), Lane2(y)) {}

  lemma Lane3Xor(x: bv64, y: bv64) ensures Lane3(XorWords(x, y)) == Xor(Lane3(x), Lane3(y)) {}

  lemma Lane4Xor(x: bv64, y: bv64) ensures Lane4(XorWords(x, y)) == Xor(Lane4(x), Lane4(y)) {}

  lemma Lane5Xor(x: bv64, y: bv64) ensures Lane5(XorWords(x, y)) == Xor(Lane5(x), Lane5(y)) {}

  lemma Lane6Xor(x: bv64, y: bv64) ensures Lane6(XorWords(x, y)) == Xor(Lane6(x), Lane6(y)) {}

  lemma Lane7Xor(x: bv64, y: bv64) ensures Lane7(XorWords(x, y)) == Xor(Lane7(x), Lane7(y)) {}

  lemma LanesXor(x: bv64, y: bv64)
    ensures Lane0(XorWords(x, y)) == Xor(Lane0(x), Lane0(y))
    ensures Lane1(XorWords(x, y)) == Xor(Lane1(x), Lane1(y))
    ensures Lane2(XorWords(x, y)) == Xor(Lane2(x), Lane2(y))
    ensures Lane3(XorWords(x, y)) == Xor(Lane3(x), Lane3(y))
    ensures Lane4(XorWords(x, y)) == Xor(Lane4(x), Lane4(y))
    ensures Lane5(XorWords(x, y)) == Xor(Lane5(x), Lane5(y))
    ensures Lane6(XorWords(x, y)) == Xor(Lane6(x), Lane6(y))
    ensures Lane7(XorWords(x, y)) == Xor(Lane7(x), Lane7(y))
  {
    hide XorWords, Xor, Lane0, Lane1, Lane2, Lane3, Lane4, Lane5, Lane6, Lane7;
    Lane0Xor(x, y);
    Lane1Xor(x, y);
    Lane2Xor(x, y);
    Lane3Xor(x, y);
    Lane4Xor(x, y);
    Lane5Xor(x, y);
    Lane6Xor(x, y);
    Lane7Xor(x, y);
  }

  /** XOR of words is XOR of their bytes. */
  lemma MemXor(host: Host, x: bv64, y: bv64, i: nat)
    requires i < 8
    ensures MemByte(host, XorWords(x, y), i) == Xor(MemByte(host, x, i), MemByte(host, y, i))
  {
    hide XorWords, Xor, Lane0, Lane1, Lane2, Lane3, Lane4, Lane5, Lane6, Lane7;
    LanesXor(x, y);
  }

  lemma JoinLanes(b0: byte, b1: byte, b2: byte, b3: byte, b4: byte, b5: byte, b6: byte, b7: byte)
    ensures var w := Join8(b0, b1, b2, b3, b4, b5, b6, b7);
            && Lane0(w) == b0 && Lane1(w) == b1 && Lane2(w) == b2 && Lane3(w) == b3
            && Lane4(w) == b4 && Lane5(w) == b5 && Lane6(w) == b6 && Lane7(w) == b7
  {
  }

  lemma LoadByte(host: Host, s: seq<byte>, i: nat)
    requires |s| == 8 && i < 8
    ensures MemByte(host, Load(host, s), i) == s[i]
  {
    hide Join8, Lane0, Lane1, Lane2, Lane3, Lane4, Lane5, Lane6, Lane7;
    JoinLanes(s[0], s[1], s[2], s[3], s[4], s[5], s[6], s[7]);
    JoinLanes(s[7], s[6], s[5], s[4], s[3], s[2], s[1], s[0]);
  }

  lemma JoinOwnLanes(w: bv64)
    ensures Join8(Lane0(w), Lane1(w), Lane2(w), Lane3(w), Lane4(w), Lane5(w), Lane6(w), Lane7(w)) == w
  {
  }

  lemma LoadStore(host: Host, w: bv64)
    ensures Load(host, Store(host, w)) == w
  {
    hide Join8, Lane0, Lane1, Lane2, Lane3, Lane4, Lane5, Lane6, Lane7;
    JoinOwnLanes(w);
  }

  lemma StoreLoad(host: Host, s: seq<byte>)
    requires |s| == 8
    ensures Store(host, Load(host, s)) == s
  {
    hide MemByte, Load;
    forall i | 0 <= i < 8 ensures Store(host, Load(host, s))[i] == s[i] {
      LoadByte(host, s, i);
    }
  }

  function Swap(w: bv64): bv64 {
    Join8(Lane7(w), Lane6(w), Lane5(w), Lane4(w), Lane3(w), Lane2(w), Lane1(w), Lane0(w))
  }

  lemma SwapTwice(w: bv64)
    ensures Swap(Swap(w)) == w
  {
    hide Join8, Lane0, Lane1, Lane2, Lane3, Lane4, Lane5, Lane6, Lane7;
    JoinOwnLanes(w);
    JoinLanes(Lane7(w), Lane6(w), Lane5(w), Lane4(w), Lane3(w), Lane2(w), Lane1(w), Lane0(w));
  }

  /** `htobe64`. */
  function ToBig(host: Host, w: bv64): bv64 {
    if host == LittleEndian then Swap(w) else w
  }

  /** `be64toh`. */
  function FromBig(host: Host, w: bv64): bv64 {
    if host == LittleEndian then Swap(w) else w
  }

  lemma BigRoundTrip(host: Host, w: bv64)
    ensures FromBig(host, ToBig(host, w)) == w
    ensures ToBig(host, w) == 0 <==> w == 0
  {
    hide Swap;
    SwapTwice(w);
    SwapZero();
  }

  lemma SwapZero()
    ensures Swap(0) == 0
  {
  }

  // ---------------------------------------------------------------- the generator

  /** The low six binary digits of `base`, made odd. */
  function RotateAmount(base: bv64): (n: bv6)
    ensures n & 1 == 1
  {
    ((base & 0x3F) as bv6) | 0x01
  }

  /** x turned right by n places. */
  function Rotated(x: bv64, n: bv6): bv64 {
    (x >> n) | (x << (64 - (n as bv64)))
  }

  /** `make_inverter`; the sum wraps at 64 bits. */
  function MakeInverter(host: Host, secret: bv64, salt: bv64, dim: bool): bv64 {
    var base := secret + salt;
    var mixed := XorWords(Rotated(base, RotateAmount(base)), salt);
    if dim then ToBig(host, mixed) else FromBig(host, mixed)
  }

  /** Obfuscation and recovery draw the same words. */
  lemma DimIsIrrelevant(host: Host, secret: bv64, salt: bv64)
    ensures MakeInverter(host, secret, salt, true) == MakeInverter(host, secret, salt, false)
  {
    hide RotateAmount, Swap;
  }

  /** The k-th word of the keystream. */
  function Key(host: Host, secret: bv64, salt: bv64, k: nat): bv64 {
    if k == 0 then MakeInverter(host, secret, salt, true)
    else MakeInverter(host, Key(host, secret, salt, k - 1), salt, true)
  }

  lemma NextKey(host: Host, secret: bv64, salt: bv64, k: nat, dim: bool)
    ensures MakeInverter(host, secret, salt, dim) == Key(host, secret, salt, 0)
    ensures MakeInverter(host, Key(host, secret, salt, k), salt, dim) == Key(host, secret, salt, k + 1)
  {
    hide MakeInverter;
    DimIsIrrelevant(host, secret, salt);
    DimIsIrrelevant(host, Key(host, secret, salt, k), salt);
  }

  /** The keystream byte for absolute position j when the first word used is number `first`. */
  function KeyByte(host: Host, secret: bv64, salt: bv64, first: nat, j: nat): byte {
    MemByte(host, Key(host, secret, salt, j / 8 + first), j % 8)
  }

  /** s with the keystream from position p on XORed over it. */
  function Mask(host: Host, secret: bv64, salt: bv64, first: nat, p: nat, s: seq<byte>): (r: seq<byte>)
    ensures |r| == |s|
  {
    seq(|s|, j requires 0 <= j < |s| => Xor(s[j], KeyByte(host, secret, salt, first, p + j)))
  }

  lemma ByteXorTwice(a: byte, b: byte)
    ensures Xor(Xor(a, b), b) == a
  {
  }

  lemma WordXorTwice(x: bv64, y: bv64)
    ensures XorWords(XorWords(x, y), y) == x
    ensures XorWords(x, y) == 0 <==> x == y
  {
  }

  /** Masking twice at the same position restores the bytes. */
  lemma MaskTwice(host: Host, secret: bv64, salt: bv64, first: nat, p: nat, s: seq<byte>)
    ensures Mask(host, secret, salt, first, p, Mask(host, secret, salt, first, p, s)) == s
  {
    hide KeyByte, Xor;
    forall j | 0 <= j < |s|
      ensures Mask(host, secret, salt, first, p, Mask(host, secret, salt, first, p, s))[j] == s[j]
    {
      ByteXorTwice(s[j], KeyByte(host, secret, salt, first, p + j));
    }
  }

  /** Masking chunk by chunk is masking the whole. */
  lemma MaskAppend(host: Host, secret: bv64, salt: bv64, first: nat, p: nat, s: seq<byte>, t: seq<byte>)
    ensures Mask(host, secret, salt, first, p, s + t) ==
            Mask(host, secret, salt, first, p, s) + Mask(host, secret, salt, first, p + |s|, t)
  {
    hide KeyByte, Xor;
  }

  lemma MaskSlice(host: Host, secret: bv64, salt: bv64, first: nat, p: nat, s: seq<byte>, i: nat, j: nat)
    requires i <= j <= |s|
    ensures Mask(host, secret, salt, first, p, s)[i..j] == Mask(host, secret, salt, first, p + i, s[i..j])
  {
    hide KeyByte, Xor;
  }

  // ---------------------------------------------------------------- in place

  /** `*(uint64_t*)ptr ^= w`. */
  method XorWord(a: array<byte>, pos: nat, host: Host, w: bv64)
    requires pos + 8 <= a.Length
    modifies a
    ensures forall i :: 0 <= i < 8 ==> a[pos + i] == Xor(old(a[pos + i]), MemByte(host, w, i))
    ensures forall k :: 0 <= k < a.Length && !(pos <= k < pos + 8) ==> a[k] == old(a[k])
  {
    hide MemByte, Load, XorLoad, Xor;
    var bytes := a[pos..pos + 8];
    var x := XorLoad(host, bytes, w);
    PutWord(a, pos, host, x);
    forall i | 0 <= i < 8 ensures a[pos + i] == Xor(old(a[pos + i]), MemByte(host, w, i)) {
      XorLoadByte(host, bytes, w, i);
    }
  }

  function XorLoad(host: Host, bytes: seq<byte>, w: bv64): bv64
    requires |bytes| == 8
  {
    XorWords(Load(host, bytes), w)
  }

  lemma XorLoadByte(host: Host, bytes: seq<byte>, w: bv64, i: nat)
    requires |bytes| == 8 && i < 8
    ensures MemByte(host, XorLoad(host, bytes, w), i) == Xor(bytes[i], MemByte(host, w, i))
  {
    hide MemByte, Load, XorWords, Xor;
    MemXor(host, Load(host, bytes), w, i);
    LoadByte(host, bytes, i);
  }

  /** `*(uint64_t*)ptr = w`. */
  method PutWord(a: array<byte>, pos: nat, host: Host, w: bv64)
    requires pos + 8 <= a.Length
    modifies a
    ensures forall i :: 0 <= i < 8 ==> a[pos + i] == MemByte(host, w, i)
    ensures forall k :: 0 <= k < a.Length && !(pos <= k < pos + 8) ==> a[k] == old(a[k])
  {
    hide MemByte;
    var i := 0;
    while i < 8
      invariant 0 <= i <= 8
      invariant forall k :: 0 <= k < i ==> a[pos + k] == MemByte(host, w, k)
      invariant forall k :: 0 <= k < a.Length && !(pos <= k < pos + i) ==> a[k] == old(a[k])
    {
      a[pos + i] := MemByte(host, w, i);
      i := i + 1;
    }
  }
}
