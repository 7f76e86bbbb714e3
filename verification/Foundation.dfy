/** Small collection helpers shared by the protocol models. */
module Containers {

  /** The least key: what `begin()` of an ordered associative container refers to. */
  function MinOf(s: set<nat>): (m: nat)
    requires s != {}
    ensures m in s
    ensures forall k :: k in s ==> m <= k
  {
    HasMinimum(s);
    var m: nat :| m in s && forall k :: k in s ==> m <= k;
    m
  }

  lemma HasMinimum(s: set<nat>)
    requires s != {}
    ensures exists m :: m in s && forall k :: k in s ==> m <= k
  {
    var k :| k in s;
    if s != {k} {
      assert s == {k} + (s - {k});
      HasMinimum(s - {k});
      var n :| n in s - {k} && forall j :: j in s - {k} ==> n <= j;
      var m := if n <= k then n else k;
      assert m in s && forall j :: j in s ==> m <= j by {
        forall j | j in s ensures m <= j { if j != k { assert j in s - {k}; } }
      }
    }
  }

  /** The greatest key: what `rbegin()` of an ordered associative container refers to. */
  function MaxOf(s: set<nat>): (m: nat)
    requires s != {}
    ensures m in s
    ensures forall k :: k in s ==> k <= m
  {
    HasMaximum(s);
    var m: nat :| m in s && forall k :: k in s ==> k <= m;
    m
  }

  lemma HasMaximum(s: set<nat>)
    requires s != {}
    ensures exists m :: m in s && forall k :: k in s ==> k <= m
  {
    var k :| k in s;
    if s != {k} {
      assert s == {k} + (s - {k});
      HasMaximum(s - {k});
      var n :| n in s - {k} && forall j :: j in s - {k} ==> j <= n;
      var m := if n <= k then k else n;
      assert m in s && forall j :: j in s ==> j <= m by {
        forall j | j in s ensures j <= m { if j != k { assert j in s - {k}; } }
      }
    }
  }

  /** `emplace`: an existing key keeps its value. */
  function Emplace<V>(m: map<nat, V>, k: nat, v: V): (r: map<nat, V>)
    ensures k in r && (forall j :: j in m ==> j in r && r[j] == m[j])
    ensures forall j :: j in r ==> j == k || j in m
    ensures k !in m ==> r[k] == v
  {
    if k in m then m else m[k := v]
  }

  function Min(a: nat, b: nat): nat { if a <= b then a else b }

  function Max(a: nat, b: nat): nat { if a <= b then b else a }

  function Concat<T>(chunks: seq<seq<T>>): seq<T> {
    if chunks == [] then [] else chunks[0] + Concat(chunks[1..])
  }

  lemma {:induction false} ConcatAppend<T>(a: seq<seq<T>>, b: seq<seq<T>>)
    ensures Concat(a + b) == Concat(a) + Concat(b)
  {
    if a == [] {
      assert a + b == b;
    } else {
      ConcatAppend(a[1..], b);
      assert (a + b)[1..] == a[1..] + b;
      assert a[0] + (Concat(a[1..]) + Concat(b)) == (a[0] + Concat(a[1..])) + Concat(b);
    }
  }

  lemma ConcatSnoc<T>(a: seq<seq<T>>, c: seq<T>)
    ensures Concat(a + [c]) == Concat(a) + c
  {
    ConcatAppend(a, [c]);
    assert Concat([c]) == c;
  }
}

/** What travels in a packet body, and the outcomes handed to completion handlers. */
module Protocol {

  type byte = bv8

  /** One section of a packet body (the wire layout is in PacketCodec). */
  datatype Section =
    | Link
    | LinkEcho
    | Tear
    | TearEcho
    | Ping(stamp: nat)
    | PingEcho(stamp: nat)
    | Move(handle: nat, fragment: seq<byte>)
    | MoveEcho(cursor: nat)
    | Edge(range: nat)
    | EdgeEcho(range: nat)

  const SECTION_HEADER: nat := 4
  const VALUE_SIZE: nat := 8
  const HANDLE_SIZE: nat := 8

  /** Bytes a section takes in a packet body. */
  function SizeOf(s: Section): (n: nat)
    ensures n >= SECTION_HEADER
  {
    match s
    case Link => SECTION_HEADER
    case LinkEcho => SECTION_HEADER
    case Tear => SECTION_HEADER
    case TearEcho => SECTION_HEADER
    case Move(_, d) => SECTION_HEADER + HANDLE_SIZE + |d|
    case _ => SECTION_HEADER + VALUE_SIZE
  }

  function SizeOfAll(ss: seq<Section>): nat {
    if ss == [] then 0 else SizeOf(ss[0]) + SizeOfAll(ss[1..])
  }

  lemma {:induction false} SizeOfAllAppend(a: seq<Section>, b: seq<Section>)
    ensures SizeOfAll(a + b) == SizeOfAll(a) + SizeOfAll(b)
  {
    if a == [] {
      assert a + b == b;
    } else {
      SizeOfAllAppend(a[1..], b);
      assert (a + b)[1..] == a[1..] + b;
    }
  }

  // ---------------------------------------------------------------- a wire that forgets nothing

  /** The wire once `sections` have been sent. */
  ghost function Join(wire: set<Section>, sections: seq<Section>): set<Section>
    decreases |sections|
  {
    if sections == [] then wire else Join(wire + {sections[0]}, sections[1..])
  }

  lemma {:induction false} JoinAppend(wire: set<Section>, a: seq<Section>, b: seq<Section>)
    ensures Join(wire, a + b) == Join(Join(wire, a), b)
    decreases |a|
  {
    if a == [] {
      assert a + b == b;
    } else {
      assert (a + b)[1..] == a[1..] + b;
      JoinAppend(wire + {a[0]}, a[1..], b);
    }
  }

  lemma {:induction false} JoinMembers(wire: set<Section>, sections: seq<Section>)
    ensures wire <= Join(wire, sections)
    ensures forall x :: x in Join(wire, sections) <==> x in wire || x in sections
    decreases |sections|
  {
    if sections != [] {
      JoinMembers(wire + {sections[0]}, sections[1..]);
      assert forall x :: x in sections <==> x == sections[0] || x in sections[1..];
    }
  }

  lemma {:induction false} JoinKnown(wire: set<Section>, sections: seq<Section>)
    requires forall x :: x in sections ==> x in wire
    ensures Join(wire, sections) == wire
    decreases |sections|
  {
    if sections != [] {
      assert wire + {sections[0]} == wire;
      JoinKnown(wire, sections[1..]);
    }
  }

  /** A point in time, or boost's max_date_time. */
  datatype Time = At(t: nat) | Never {
    predicate NotAfter(now: nat) { At? && t <= now }
    predicate Before(now: nat) { At? && t < now }
  }

  datatype Code =
    | Success
    | NoBufferSpace
    | BrokenPipe
    | ConnectionAborted
    | Interrupted
    | InProgress
    | NotConnected
    | AlreadyConnected
    | NoPermission
    | TryAgain
    | BadDescriptor
    | MessageSize

  /** The tunables of `udp::qos`, which the program reads once from its environment. */
  datatype Config = Config(
    sendBuffer: nat,
    receiveBuffer: nat,
    swarm: nat,
    attempts: nat,
    packetSize: nat,
    pingTimeout: nat,
    shutdownTimeout: nat,
    connectTimeout: nat,
    acceptTimeout: nat)
}
