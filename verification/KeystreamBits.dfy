/** What the generator of the keystream computes, one binary digit at a time. */
module KeystreamBits {
  import opened Keystream

  function And(x: bv64, u: bv64): bv64 { x & u }

  function Twice(u: bv64): bv64 { u + u }

  /** The word in which binary digit i, counted from the least significant one, is 1 and no other. */
  function Unit(i: bv6): bv64
    decreases i
  {
    if i == 0 then 1 else Twice(Unit(i - 1))
  }

  /** Binary digit i of w is 1. */
  predicate Bit(w: bv64, i: bv6) {
    And(w, Unit(i)) != 0
  }

  const TOP: bv64 := 0x8000000000000000

  lemma Doubled(i: bv6, u: bv64)
    requires i != 0 && u == (1 as bv64) << (i - 1)
    ensures Twice(u) == (1 as bv64) << i
  {
  }

  lemma {:induction false} UnitShift(i: bv6)
    ensures Unit(i) == 1 << i
    decreases i
  {
    hide Twice;
    if i != 0 {
      UnitShift(i - 1);
      Doubled(i, Unit(i - 1));
    }
  }

  lemma UnitTop(i: bv6)
    ensures And(Unit(i), TOP) == 0 <==> i != 63
    ensures Unit(63) == TOP
  {
    UnitShift(i);
    UnitShift(63);
    hide Unit;
  }

  // ---------------------------------------------------------------- turning a word

  /** y is x turned right by n places, as the program does it. */
  predicate Rotates(x: bv64, y: bv64, n: bv6) {
    y == (x >> n) | (x << (64 - (n as bv64)))
  }

  /** As far as digit i can tell, y is x turned right by n places. */
  predicate Turned(x: bv64, y: bv64, n: bv6, i: bv6) {
    Bit(y, i) <==> Bit(x, i + n)
  }

  lemma TurnOnce(x: bv64, u: bv64)
    ensures And(u, TOP) == 0 ==> (And((x >> 1) | (x << 63), u) != 0 <==> And(x, Twice(u)) != 0)
    ensures And((x >> 1) | (x << 63), TOP) != 0 <==> And(x, 1) != 0
  {
  }

  lemma One(x: bv64, y: bv64, i: bv6)
    requires y == (x >> 1) | (x << 63)
    ensures Turned(x, y, 1, i)
  {
    hide And, Twice;
    UnitTop(i);
    TurnOnce(x, Unit(i));
    if i != 63 {
      assert Unit(i + 1) == Twice(Unit(i));
    }
    hide Unit;
  }

  lemma Once(x: bv64, y: bv64, i: bv6)
    requires Rotates(x, y, 1)
    ensures Turned(x, y, 1, i)
  {
    hide Turned;
    One(x, y, i);
  }

  lemma Then(x: bv64, y: bv64, z: bv64, n: bv6, m: bv6, i: bv6)
    requires Turned(x, y, n, i + m) && Turned(y, z, m, i)
    ensures Turned(x, z, n + m, i)
  {
    hide Bit;
    assert i + (n + m) == i + m + n;
  }

  lemma Two(x: bv64, y: bv64, i: bv6)
    requires y == (x >> 2) | (x << 62)
    ensures Turned(x, y, 2, i)
  {
    hide Turned;
    var z := (x >> 1) | (x << 63);
    One(x, z, i + 1);
    One(z, y, i);
    Then(x, z, y, 1, 1, i);
  }

  lemma Four(x: bv64, y: bv64, i: bv6)
    requires y == (x >> 4) | (x << 60)
    ensures Turned(x, y, 4, i)
  {
    hide Turned;
    var z := (x >> 2) | (x << 62);
    Two(x, z, i + 2);
    Two(z, y, i);
    Then(x, z, y, 2, 2, i);
  }

  lemma Eight(x: bv64, y: bv64, i: bv6)
    requires y == (x >> 8) | (x << 56)
    ensures Turned(x, y, 8, i)
  {
    hide Turned;
    var z := (x >> 4) | (x << 60);
    Four(x, z, i + 4);
    Four(z, y, i);
    Then(x, z, y, 4, 4, i);
  }

  lemma Sixteen(x: bv64, y: bv64, i: bv6)
    requires y == (x >> 16) | (x << 48)
    ensures Turned(x, y, 16, i)
  {
    hide Turned;
    var z := (x >> 8) | (x << 56);
    Eight(x, z, i + 8);
    Eight(z, y, i);
    Then(x, z, y, 8, 8, i);
  }

  lemma ThirtyTwo(x: bv64, y: bv64, i: bv6)
    requires y == (x >> 32) | (x << 32)
    ensures Turned(x, y, 32, i)
  {
    hide Turned;
    var z := (x >> 16) | (x << 48);
    Sixteen(x, z, i + 16);
    Sixteen(z, y, i);
    Then(x, z, y, 16, 16, i);
  }

  lemma WithoutTwo(x: bv64, y: bv64, n: bv6) returns (z: bv64)
    requires 2 < n < 4 && n & 1 == 1 && Rotates(x, y, n)
    ensures Rotates(x, z, n - 2) && y == (z >> 2) | (z << 62)
  {
    z := (x >> (n - 2)) | (x << (64 - ((n - 2) as bv64)));
  }

  lemma BelowFour(x: bv64, y: bv64, n: bv6, i: bv6)
    requires n < 4 && n & 1 == 1 && Rotates(x, y, n)
    ensures Turned(x, y, n, i)
  {
    hide Turned, Rotates;
    if n < 2 {
      Once(x, y, i);
    } else {
      var z := WithoutTwo(x, y, n);
      Once(x, z, i + 2);
      Two(z, y, i);
      Then(x, z, y, n - 2, 2, i);
    }
  }

  lemma WithoutFour(x: bv64, y: bv64, n: bv6) returns (z: bv64)
    requires 4 < n < 8 && n & 1 == 1 && Rotates(x, y, n)
    ensures Rotates(x, z, n - 4) && y == (z >> 4) | (z << 60)
  {
    z := (x >> (n - 4)) | (x << (64 - ((n - 4) as bv64)));
  }

  lemma BelowEight(x: bv64, y: bv64, n: bv6, i: bv6)
    requires n < 8 && n & 1 == 1 && Rotates(x, y, n)
    ensures Turned(x, y, n, i)
  {
    hide Turned, Rotates;
    if n < 4 {
      BelowFour(x, y, n, i);
    } else {
      var z := WithoutFour(x, y, n);
      BelowFour(x, z, n - 4, i + 4);
      Four(z, y, i);
      Then(x, z, y, n - 4, 4, i);
    }
  }

  lemma WithoutEight(x: bv64, y: bv64, n: bv6) returns (z: bv64)
    requires 8 < n < 16 && n & 1 == 1 && Rotates(x, y, n)
    ensures Rotates(x, z, n - 8) && y == (z >> 8) | (z << 56)
  {
    z := (x >> (n - 8)) | (x << (64 - ((n - 8) as bv64)));
  }

  lemma BelowSixteen(x: bv64, y: bv64, n: bv6, i: bv6)
    requires n < 16 && n & 1 == 1 && Rotates(x, y, n)
    ensures Turned(x, y, n, i)
  {
    hide Turned, Rotates;
    if n < 8 {
      BelowEight(x, y, n, i);
    } else {
      var z := WithoutEight(x, y, n);
      BelowEight(x, z, n - 8, i + 8);
      Eight(z, y, i);
      Then(x, z, y, n - 8, 8, i);
    }
  }

  lemma WithoutSixteen(x: bv64, y: bv64, n: bv6) returns (z: bv64)
    requires 16 < n < 32 && n & 1 == 1 && Rotates(x, y, n)
    ensures Rotates(x, z, n - 16) && y == (z >> 16) | (z << 48)
  {
    z := (x >> (n - 16)) | (x << (64 - ((n - 16) as bv64)));
  }

  lemma BelowThirtyTwo(x: bv64, y: bv64, n: bv6, i: bv6)
    requires n < 32 && n & 1 == 1 && Rotates(x, y, n)
    ensures Turned(x, y, n, i)
  {
    hide Turned, Rotates;
    if n < 16 {
      BelowSixteen(x, y, n, i);
    } else {
      var z := WithoutSixteen(x, y, n);
      BelowSixteen(x, z, n - 16, i + 16);
      Sixteen(z, y, i);
      Then(x, z, y, n - 16, 16, i);
    }
  }

  lemma LowThirtyTwo(x: bv64, y: bv64, n: bv6) returns (z: bv64)
    requires 32 < n < 48 && n & 1 == 1 && Rotates(x, y, n)
    ensures Rotates(x, z, n - 32) && y == (z >> 32) | (z << 32)
  {
    z := (x >> (n - 32)) | (x << (64 - ((n - 32) as bv64)));
  }

  lemma HighThirtyTwo(x: bv64, y: bv64, n: bv6) returns (z: bv64)
    requires n > 48 && n & 1 == 1 && Rotates(x, y, n)
    ensures Rotates(x, z, n - 32) && y == (z >> 32) | (z << 32)
  {
    z := (x >> (n - 32)) | (x << (64 - ((n - 32) as bv64)));
  }

  lemma WithoutThirtyTwo(x: bv64, y: bv64, n: bv6) returns (z: bv64)
    requires n > 32 && n & 1 == 1 && Rotates(x, y, n)
    ensures Rotates(x, z, n - 32) && y == (z >> 32) | (z << 32)
  {
    hide Rotates;
    if n < 48 {
      z := LowThirtyTwo(x, y, n);
    } else {
      z := HighThirtyTwo(x, y, n);
    }
  }

  lemma BelowSixtyFour(x: bv64, y: bv64, n: bv6, i: bv6)
    requires n & 1 == 1 && Rotates(x, y, n)
    ensures Turned(x, y, n, i)
  {
    hide Turned, Rotates;
    if n < 32 {
      BelowThirtyTwo(x, y, n, i);
    } else {
      var z := WithoutThirtyTwo(x, y, n);
      BelowThirtyTwo(x, z, n - 32, i + 32);
      ThirtyTwo(z, y, i);
      Then(x, z, y, n - 32, 32, i);
    }
  }

  // ---------------------------------------------------------------- the generator

  lemma XorBit(x: bv64, y: bv64, i: bv6)
    ensures Bit(XorWords(x, y), i) <==> Bit(x, i) != Bit(y, i)
  {
    UnitShift(i);
    hide Unit;
  }

  lemma Rotation(x: bv64, n: bv6)
    ensures Rotates(x, Rotated(x, n), n)
  {
  }

  lemma MixedBit(base: bv64, salt: bv64, i: bv6)
    ensures var n := RotateAmount(base);
            Bit(XorWords(Rotated(base, n), salt), i) != Bit(salt, i) <==> Bit(base, i + n)
  {
    hide Rotated, Rotates, RotateAmount, XorWords, Bit;
    var n := RotateAmount(base);
    Rotation(base, n);
    BelowSixtyFour(base, Rotated(base, n), n, i);
    XorBit(Rotated(base, n), salt, i);
  }

  lemma InverterMixed(host: Host, secret: bv64, salt: bv64, dim: bool)
    ensures var base := secret + salt;
            FromBig(host, MakeInverter(host, secret, salt, dim)) == XorWords(Rotated(base, RotateAmount(base)), salt)
  {
    hide Swap, Rotated, RotateAmount, XorWords;
    SwapTwice(XorWords(Rotated(secret + salt, RotateAmount(secret + salt)), salt));
  }

  lemma AmountIs(base: bv64, n: bv6)
    requires n as bv64 == base % 64 / 2 * 2 + 1
    ensures n == RotateAmount(base)
  {
  }

  /**
   * What `make_inverter` computes: in big-endian reading, digit i of the word differs from digit i of the salt exactly if
   * digit i + n of `base` is 1, where `base` is the sum of secret and salt modulo 2 to the 64th, n is `base` modulo 64 made
   * odd, and i + n wraps at 64.
   */
  lemma InverterBit(host: Host, secret: bv64, salt: bv64, dim: bool, n: bv6, i: bv6)
    requires n as bv64 == (secret + salt) % 64 / 2 * 2 + 1
    ensures Bit(FromBig(host, MakeInverter(host, secret, salt, dim)), i) != Bit(salt, i) <==> Bit(secret + salt, i + n)
  {
    hide MakeInverter, FromBig, Rotated, RotateAmount, XorWords, Bit;
    AmountIs(secret + salt, n);
    InverterMixed(host, secret, salt, dim);
    MixedBit(secret + salt, salt, i);
  }
}
