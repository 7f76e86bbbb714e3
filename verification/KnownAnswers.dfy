/** Literal bytes: what both ends must agree on with any other implementation of the protocol. */
module KnownAnswers {
  import opened Protocol
  import P = PacketCodec
  import K = Keystream
  import U = UdpCipher
  import T = TcpStream

  // ---------------------------------------------------------------- numbers and sections

  lemma SmallBytes()
    ensures P.ByteOf(0) == 0 && P.ByteOf(1) == 1 && P.ByteOf(2) == 2 && P.ByteOf(3) == 3 && P.ByteOf(4) == 4
    ensures P.ByteOf(5) == 5 && P.ByteOf(6) == 6 && P.ByteOf(7) == 7 && P.ByteOf(8) == 8 && P.ByteOf(9) == 9
    ensures P.ByteOf(10) == 10 && P.ByteOf(11) == 11
  {
  }

  /** A number of two bytes, most significant first. */
  lemma Short(n: nat)
    requires n < 256
    ensures P.BigEndian(n, 2) == [P.ByteOf(0), P.ByteOf(n)]
  {
    hide P.ByteOf;
    assert P.BigEndian(0, 1) == [] + [P.ByteOf(0)];
  }

  /** Numbers stand in network order. */
  lemma NumberLayout()
    ensures P.BigEndian(0x0102030405060708, 8) == [1, 2, 3, 4, 5, 6, 7, 8]
  {
    hide P.ByteOf;
    SmallBytes();
    assert P.BigEndian(0x01, 1) == [1];
    assert P.BigEndian(0x0102, 2) == [1, 2];
    assert P.BigEndian(0x010203, 3) == [1, 2, 3];
    assert P.BigEndian(0x01020304, 4) == [1, 2, 3, 4];
    assert P.BigEndian(0x0102030405, 5) == [1, 2, 3, 4, 5];
    assert P.BigEndian(0x010203040506, 6) == [1, 2, 3, 4, 5, 6];
    assert P.BigEndian(0x01020304050607, 7) == [1, 2, 3, 4, 5, 6, 7];
  }

  /** The bytes of every section: the flags of its kind, the length of its value, its value. */
  lemma SectionLayout(v: nat, d: seq<byte>)
    ensures P.EncodeSection(Link) == [0, 2, 0, 0] && P.EncodeSection(LinkEcho) == [0, 3, 0, 0]
    ensures P.EncodeSection(Tear) == [0, 4, 0, 0] && P.EncodeSection(TearEcho) == [0, 5, 0, 0]
    ensures P.EncodeSection(Ping(v)) == [0, 6, 0, 8] + P.BigEndian(v, 8)
    ensures P.EncodeSection(PingEcho(v)) == [0, 7, 0, 8] + P.BigEndian(v, 8)
    ensures P.EncodeSection(Move(v, d)) == [0, 8] + P.BigEndian(8 + |d|, 2) + P.BigEndian(v, 8) + d
    ensures P.EncodeSection(MoveEcho(v)) == [0, 9, 0, 8] + P.BigEndian(v, 8)
    ensures P.EncodeSection(Edge(v)) == [0, 10, 0, 8] + P.BigEndian(v, 8)
    ensures P.EncodeSection(EdgeEcho(v)) == [0, 11, 0, 8] + P.BigEndian(v, 8)
  {
    hide P.ByteOf, P.BigEndian;
    SmallBytes();
    Short(0); Short(2); Short(3); Short(4); Short(5); Short(6); Short(7); Short(8); Short(9); Short(10); Short(11);
  }

  /** The header in front of the body: a zero salt field, the signature, the version, the pin. */
  lemma HeaderLayout(pin: nat)
    ensures P.Header(pin) == [0, 0, 0, 0, 0, 0, 0, 0] + [9, 9, 1, 2] + P.BigEndian(pin, 4)
  {
    hide P.ByteOf;
    SmallBytes();
    assert P.BigEndian(0, 1) == [0];
    assert P.BigEndian(0, 2) == [0, 0];
    assert P.BigEndian(0, 3) == [0, 0, 0];
    assert P.BigEndian(0, 4) == [0, 0, 0, 0];
    assert P.BigEndian(0, 5) == [0, 0, 0, 0, 0];
    assert P.BigEndian(0, 6) == [0, 0, 0, 0, 0, 0];
    assert P.BigEndian(0, 7) == [0, 0, 0, 0, 0, 0, 0];
    assert P.BigEndian(9, 1) == [9] && P.BigEndian(1, 1) == [1];
    assert P.SIGN / 256 == 9 && P.SIGN % 256 == 9 && P.VERSION / 256 == 1 && P.VERSION % 256 == 2;
  }

  // ---------------------------------------------------------------- words in memory

  const COUNT: bv64 := 0x0102030405060708

  lemma CountLanes()
    ensures K.Lane0(COUNT) == 8 && K.Lane1(COUNT) == 7 && K.Lane2(COUNT) == 6 && K.Lane3(COUNT) == 5
    ensures K.Lane4(COUNT) == 4 && K.Lane5(COUNT) == 3 && K.Lane6(COUNT) == 2 && K.Lane7(COUNT) == 1
  {
  }

  /** A little-endian host stores the least significant byte first, a big-endian one last. */
  lemma MemoryOrder()
    ensures K.Store(K.BigEndian, COUNT) == [1, 2, 3, 4, 5, 6, 7, 8]
    ensures K.Store(K.LittleEndian, COUNT) == [8, 7, 6, 5, 4, 3, 2, 1]
  {
    hide K.Lane0, K.Lane1, K.Lane2, K.Lane3, K.Lane4, K.Lane5, K.Lane6, K.Lane7;
    CountLanes();
  }

  lemma SwapLanes(w: bv64)
    ensures K.Lane0(K.Swap(w)) == K.Lane7(w) && K.Lane1(K.Swap(w)) == K.Lane6(w)
    ensures K.Lane2(K.Swap(w)) == K.Lane5(w) && K.Lane3(K.Swap(w)) == K.Lane4(w)
    ensures K.Lane4(K.Swap(w)) == K.Lane3(w) && K.Lane5(K.Swap(w)) == K.Lane2(w)
    ensures K.Lane6(K.Swap(w)) == K.Lane1(w) && K.Lane7(K.Swap(w)) == K.Lane0(w)
  {
    hide K.Join8, K.Lane0, K.Lane1, K.Lane2, K.Lane3, K.Lane4, K.Lane5, K.Lane6, K.Lane7;
    K.JoinLanes(K.Lane7(w), K.Lane6(w), K.Lane5(w), K.Lane4(w), K.Lane3(w), K.Lane2(w), K.Lane1(w), K.Lane0(w));
  }

  lemma NetworkByte(host: K.Host, w: bv64, i: nat)
    requires i < 8
    ensures K.MemByte(host, K.ToBig(host, w), i) == K.MemByte(K.BigEndian, w, i)
  {
    hide K.Swap, K.Lane0, K.Lane1, K.Lane2, K.Lane3, K.Lane4, K.Lane5, K.Lane6, K.Lane7;
    SwapLanes(w);
  }

  /** A word that `htobe64` has converted stands in memory most significant byte first, on either host. */
  lemma NetworkOrder(host: K.Host, w: bv64)
    ensures K.Store(host, K.ToBig(host, w)) == K.Store(K.BigEndian, w)
  {
    hide K.MemByte, K.ToBig;
    forall i | 0 <= i < 8 ensures K.Store(host, K.ToBig(host, w))[i] == K.Store(K.BigEndian, w)[i] {
      NetworkByte(host, w, i);
    }
  }

  // ---------------------------------------------------------------- the keystream

  lemma FirstWord()
    ensures K.MakeInverter(K.BigEndian, 1, 2, true) == 0x6000000000000002
  {
  }

  lemma SecondWord()
    ensures K.MakeInverter(K.BigEndian, 0x6000000000000002, 2, true) == 0x2300000000000002
  {
  }

  /** The sum of secret and salt wraps at 64 bits. */
  lemma WrappedWord()
    ensures K.MakeInverter(K.BigEndian, 0xFFFFFFFFFFFFFFFF, 2, true) == 0x8000000000000002
  {
  }

  /** An even amount is made odd. */
  lemma OddAmount()
    ensures K.MakeInverter(K.BigEndian, 0x40, 0, true) == 0x20
  {
  }

  lemma LittleWords()
    ensures K.MakeInverter(K.LittleEndian, 1, 2, true) == 0x0200000000000060
    ensures K.MakeInverter(K.LittleEndian, 0x0200000000000060, 2, true) == 0x020040400c000000
  {
  }

  lemma FirstBytes()
    ensures K.Store(K.BigEndian, 0x6000000000000002) == [0x60, 0, 0, 0, 0, 0, 0, 2]
    ensures K.Store(K.BigEndian, 0x2300000000000002) == [0x23, 0, 0, 0, 0, 0, 0, 2]
    ensures K.Store(K.BigEndian, 3) == [0, 0, 0, 0, 0, 0, 0, 3]
    ensures K.Store(K.BigEndian, 0x6000000009090003) == [0x60, 0, 0, 0, 9, 9, 0, 3]
  {
    WordLanes();
    hide K.Lane0, K.Lane1, K.Lane2, K.Lane3, K.Lane4, K.Lane5, K.Lane6, K.Lane7;
  }

  lemma WordLanes()
    ensures var w := 0x6000000000000002; K.Lane7(w) == 0x60 && K.Lane0(w) == 2
    ensures var w := 0x2300000000000002; K.Lane7(w) == 0x23 && K.Lane0(w) == 2
    ensures var w := 3; K.Lane7(w) == 0 && K.Lane0(w) == 3
    ensures var w := 0x6000000009090003; K.Lane7(w) == 0x60 && K.Lane3(w) == 9 && K.Lane2(w) == 9 && K.Lane1(w) == 0 && K.Lane0(w) == 3
    ensures forall w :: w in {0x6000000000000002, 0x2300000000000002, 3, 0x6000000009090003} ==>
              K.Lane6(w) == 0 && K.Lane5(w) == 0 && K.Lane4(w) == 0
    ensures forall w :: w in {0x6000000000000002, 0x2300000000000002, 3} ==>
              K.Lane3(w) == 0 && K.Lane2(w) == 0 && K.Lane1(w) == 0
  {
  }

  lemma FirstKeys()
    ensures K.Key(K.BigEndian, 1, 2, 0) == 0x6000000000000002
    ensures K.Key(K.BigEndian, 1, 2, 1) == 0x2300000000000002
  {
    FirstWord();
    SecondWord();
    hide K.MakeInverter;
  }

  lemma ZeroXor(b: byte)
    ensures K.Xor(0, b) == b
  {
  }

  /** A packet of nine zero bytes behind its salt field, sent with the secret 1 and the salt 2. */
  lemma PacketOnWire()
    ensures U.Inverted(K.BigEndian, 1, 2, seq(17, _ => 0)) ==
            [0, 0, 0, 0, 0, 0, 0, 3] + [0x60, 0, 0, 0, 0, 0, 0, 2] + [0x23]
  {
    hide K.MakeInverter, K.Key, K.MemByte, K.Load, K.Xor, K.XorWords;
    var plain: seq<byte> := seq(17, _ => 0);
    U.PlainField(K.BigEndian, plain);
    FieldWord();
    FirstKeys();
    FirstBytes();
    forall b: byte ensures K.Xor(0, b) == b {
      ZeroXor(b);
    }
    var masked := K.Mask(K.BigEndian, 1, 2, 0, 0, plain[8..]);
    assert masked[8] == K.Store(K.BigEndian, 0x2300000000000002)[0];
    assert masked[..8] == K.Store(K.BigEndian, 0x6000000000000002);
    assert masked == masked[..8] + [masked[8]];
  }

  lemma FieldWord()
    ensures K.XorWords(2, 1) == 3
  {
  }

  lemma HeadWord()
    ensures K.XorWords(T.SIGNATURE, 0x6000000000000002) == 0x6000000009090003
  {
  }

  /** A zero byte written to a stream, with the secret 1 and the salt 2: the header, then the byte. */
  lemma StreamOnWire()
    ensures T.Wire(K.BigEndian, 1, T.IDLE, [T.Chunk([0], 2)]) ==
            [0, 0, 0, 0, 0, 0, 0, 3] + [0x60, 0, 0, 0, 9, 9, 0, 3] + [0x23]
  {
    hide K.MakeInverter, K.Key, K.MemByte, K.Store, K.Xor, K.XorWords, T.Wire;
    var one := [T.Chunk([0], 2)];
    T.WireOfWrites(K.BigEndian, 1, one);
    assert one[1..] == [];
    assert T.Texts(one) == [0];
    FieldWord();
    HeadWord();
    FirstKeys();
    FirstBytes();
    FirstMasked();
  }

  lemma FirstMasked()
    ensures T.Masked(K.BigEndian, 1, 2, 0, [0]) == [0x23]
  {
    hide K.MakeInverter, K.Key, K.MemByte, K.Xor;
    FirstKeys();
    FirstBytes();
    ZeroXor(0x23);
    assert K.MemByte(K.BigEndian, 0x2300000000000002, 0) == K.Store(K.BigEndian, 0x2300000000000002)[0];
  }
}
